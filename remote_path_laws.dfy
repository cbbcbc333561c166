/**
 * Laws of the remote path algebra: pathlib's parse/str round trip, and the
 * behaviour of `changedir` for ".", "..", plain segments and absolute
 * entries, including where re-detecting the style from each string breaks
 * the append/parent inverse.
 */
module RemotePathLaws {
  import opened RemotePaths

  // ---------------------------------------------------------------------
  // split / join
  // ---------------------------------------------------------------------

  /** Splitting `a + b` when `a` holds no separator glues `a` to the first piece of `b`. */
  lemma {:induction false} SplitPrepend(a: string, b: string, sep: char)
    requires sep !in a
    ensures Split(a + b, sep) == [a + Split(b, sep)[0]] + Split(b, sep)[1..]
    decreases |a|
  {
    if a == [] {
      var pieces := Split(b, sep);
      assert a + b == b && a + pieces[0] == pieces[0];
      assert pieces == [pieces[0]] + pieces[1..];
    } else {
      var s := a + b;
      assert s != [] && s[0] == a[0] && s[0] != sep;
      assert s[1..] == a[1..] + b;
      SplitPrepend(a[1..], b, sep);
      var rest := Split(s[1..], sep);
      assert rest[0] == a[1..] + Split(b, sep)[0];
      assert rest[1..] == Split(b, sep)[1..];
      assert Split(s, sep) == [[s[0]] + rest[0]] + rest[1..];
      assert [a[0]] + (a[1..] + Split(b, sep)[0]) == a + Split(b, sep)[0];
    }
  }

  /** A piece without the separator splits to itself. */
  lemma SplitNoSeparator(a: string, sep: char)
    requires sep !in a
    ensures Split(a, sep) == [a]
  {
    SplitPrepend(a, [], sep);
    assert a + [] == a;
  }

  /** `s.split(sep)` undoes `sep.join(pieces)` when no piece holds the separator. */
  lemma {:induction false} SplitJoin(pieces: seq<string>, sep: char)
    requires |pieces| >= 1
    requires forall i :: 0 <= i < |pieces| ==> sep !in pieces[i]
    ensures Split(JoinWith(pieces, sep), sep) == pieces
    decreases |pieces|
  {
    SplitNoSeparator(pieces[0], sep);
    if |pieces| == 1 {
      assert pieces == [pieces[0]];
    } else {
      var rest := JoinWith(pieces[1..], sep);
      SplitJoin(pieces[1..], sep);
      assert JoinWith(pieces, sep) == pieces[0] + [sep] + rest;
      SplitAtSeparator(pieces[0], rest, sep);
      assert pieces == [pieces[0]] + pieces[1..];
    }
  }

  /** Nothing is dropped from pieces that are neither empty nor ".". */
  lemma {:induction false} KeepAll(pieces: seq<string>)
    requires forall i :: 0 <= i < |pieces| ==> pieces[i] != "" && pieces[i] != "."
    ensures Keep(pieces) == pieces
    decreases |pieces|
  {
    if pieces != [] {
      KeepAll(pieces[1..]);
      assert pieces == [pieces[0]] + pieces[1..];
    }
  }

  /** One step of `str.split`: the first character either ends a piece or starts one. */
  lemma SplitStep(s: string, sep: char)
    requires s != []
    ensures s[0] == sep ==> Split(s, sep) == [[]] + Split(s[1..], sep)
    ensures s[0] != sep ==> Split(s, sep) == [[s[0]] + Split(s[1..], sep)[0]] + Split(s[1..], sep)[1..]
  {
  }

  /** The piece-list step of `SplitStep` commutes with appending more pieces. */
  lemma ConsPieces(c: char, sep: char, left: seq<string>, right: seq<string>)
    requires |left| >= 1
    ensures c == sep ==> [[]] + (left + right) == ([[]] + left) + right
    ensures c != sep ==>
              [[c] + (left + right)[0]] + (left + right)[1..] == ([[c] + left[0]] + left[1..]) + right
  {
    if c != sep {
      assert (left + right)[0] == left[0] && (left + right)[1..] == left[1..] + right;
    }
  }

  /** Splitting at a separator splits the pieces there. */
  lemma {:induction false} SplitAtSeparator(a: string, b: string, sep: char)
    ensures Split(a + [sep] + b, sep) == Split(a, sep) + Split(b, sep)
    decreases |a|
  {
    var s := a + [sep] + b;
    if a == [] {
      assert s == [sep] + b && s[1..] == b;
      SplitStep(s, sep);
      assert Split("", sep) == [""];
    } else {
      assert s[0] == a[0] && s[1..] == a[1..] + [sep] + b;
      SplitAtSeparator(a[1..], b, sep);
      SplitStep(s, sep);
      SplitStep(a, sep);
      ConsPieces(a[0], sep, Split(a[1..], sep), Split(b, sep));
    }
  }

  /** Keeping distributes over concatenation: pieces survive in order. */
  lemma {:induction false} KeepAppend(a: seq<string>, b: seq<string>)
    ensures Keep(a + b) == Keep(a) + Keep(b)
    decreases |a|
  {
    if a != [] {
      KeepAppend(a[1..], b);
      assert (a + b)[0] == a[0] && (a + b)[1..] == a[1..] + b;
    } else {
      assert a + b == b;
    }
  }

  /**
   * The segments on either side of a separator are the segments of the
   * whole, in order: repeated, leading and trailing separators and "./"
   * add none.
   */
  lemma SegmentsAtSeparator(a: string, b: string, sep: char)
    ensures Segments(a + [sep] + b, sep) == Segments(a, sep) + Segments(b, sep)
  {
    SplitAtSeparator(a, b, sep);
    KeepAppend(Split(a, sep), Split(b, sep));
  }

  /** No character other than the separator appears in a join unless a piece holds it. */
  lemma {:induction false} JoinWithAvoids(pieces: seq<string>, sep: char, c: char)
    requires c != sep
    requires forall i :: 0 <= i < |pieces| ==> c !in pieces[i]
    ensures c !in JoinWith(pieces, sep)
    decreases |pieces|
  {
    if |pieces| > 1 {
      JoinWithAvoids(pieces[1..], sep, c);
    }
  }

  /**
   * A join starts with its first piece, followed by a separator when more
   * follow, and ends with its last piece.
   */
  lemma {:induction false} JoinWithFirst(pieces: seq<string>, sep: char)
    requires |pieces| >= 1
    ensures JoinWith(pieces, sep)[..|pieces[0]|] == pieces[0]
    ensures |pieces| == 1 ==> JoinWith(pieces, sep) == pieces[0]
    ensures |pieces| >= 2 ==> |JoinWith(pieces, sep)| > |pieces[0]| && JoinWith(pieces, sep)[|pieces[0]|] == sep
    ensures var j, last := JoinWith(pieces, sep), pieces[|pieces| - 1];
            |last| <= |j| && j[|j| - |last|..] == last
    decreases |pieces|
  {
    if |pieces| >= 2 {
      var j := JoinWith(pieces, sep);
      var rest := JoinWith(pieces[1..], sep);
      assert j == pieces[0] + ([sep] + rest);
      JoinWithFirst(pieces[1..], sep);
      var last := pieces[|pieces| - 1];
      assert pieces[1..][|pieces[1..]| - 1] == last;
      assert j[|j| - |last|..] == rest[|rest| - |last|..];
    }
  }

  /**
   * `str(path)` of a path with valid segments is never empty; it starts with
   * the drive and the root; without them it is "." exactly for the empty
   * path, and a Windows path whose first segment reads as a drive gets ".\".
   */
  lemma FormatShape(style: Style, p: PurePath)
    requires ValidParts(style, p.parts)
    ensures Format(style, p) != ""
    ensures p.drive != "" || p.root != "" ==>
              |p.drive + p.root| <= |Format(style, p)| && Format(style, p)[..|p.drive + p.root|] == p.drive + p.root
    ensures p.drive == "" && p.root == "" ==> (Format(style, p) == "." <==> p.parts == [])
    ensures style == Windows && p.drive == "" && p.root == "" && p.parts != [] && DriveLike(p.parts[0]) ==>
              |Format(style, p)| >= 2 && Format(style, p)[..2] == ".\\"
  {
    if p.parts != [] {
      JoinWithFirst(p.parts, Sep(style));
    }
  }

  /** Parsing the join of valid segments gives the segments back. */
  lemma SegmentsOfJoin(style: Style, parts: seq<string>)
    requires ValidParts(style, parts)
    ensures Segments(JoinWith(parts, Sep(style)), Sep(style)) == parts
  {
    var sep := Sep(style);
    if parts == [] {
      assert Split("", sep) == [""];
      assert [""][1..] == [];
    } else {
      SplitJoin(parts, sep);
      KeepAll(parts);
    }
  }

  lemma SingleSegment(style: Style, x: string)
    requires ValidPart(style, x)
    ensures Segments(x, Sep(style)) == [x]
  {
    SegmentsOfJoin(style, [x]);
  }

  lemma DotHasNoSegments(sep: char)
    requires sep != '.'
    ensures Segments(".", sep) == []
  {
    assert Split("", sep) == [""];
    assert "."[1..] == "";
    assert Split(".", sep) == ["."];
    assert ["."][1..] == [];
  }

  lemma BackslashesUnchanged(s: string)
    requires '/' !in s
    ensures ToBackslashes(s) == s
  {
  }

  // ---------------------------------------------------------------------
  // parse(str(p)) == p
  // ---------------------------------------------------------------------

  lemma ParseFormatPosix(p: PurePath)
    requires WellFormed(Posix, p)
    ensures ParsePosix(Format(Posix, p)) == p
  {
    var j := JoinWith(p.parts, '/');
    JoinOfValidParts(Posix, p.parts);
    if p.root == "" && p.parts == [] {
      DotHasNoSegments('/');
    } else if p.root == "" {
      ParsePosixRelative(j);
    } else if p.root == "/" {
      ParsePosixRooted("/", j);
    } else {
      ParsePosixRooted("//", j);
    }
  }

  lemma ParsePosixRelative(j: string)
    requires j != "" && j[0] != '/'
    ensures ParsePosix(j) == PurePath("", "", Segments(j, '/'))
  {
  }

  lemma ParsePosixRooted(root: string, j: string)
    requires root == "/" || root == "//"
    requires j == "" || j[0] != '/'
    ensures ParsePosix(root + j) == PurePath("", root, Segments(j, '/'))
  {
    var s := root + j;
    if root == "/" {
      assert s[1..] == j;
    } else {
      assert s[2..] == j;
    }
  }

  lemma ParseWindowsRooted(j: string)
    requires '/' !in j && (j == "" || j[0] != '\\')
    ensures ParseWindows("\\" + j) == PurePath("", "\\", Segments(j, '\\'))
  {
    var s := "\\" + j;
    BackslashesUnchanged(s);
    assert s[1..] == j;
  }

  lemma ParseWindowsDriveRoot(d: string, j: string)
    requires ValidDrive(d) && '/' !in j
    ensures ParseWindows(d + "\\" + j) == PurePath(d, "\\", Segments(j, '\\'))
  {
    var s := d + "\\" + j;
    BackslashesUnchanged(s);
    assert s[..2] == d && s[2] == '\\' && s[3..] == j;
  }

  lemma ParseWindowsDrive(d: string, j: string)
    requires ValidDrive(d) && '/' !in j && (j == "" || j[0] != '\\')
    ensures ParseWindows(d + j) == PurePath(d, "", Segments(j, '\\'))
  {
    var s := d + j;
    BackslashesUnchanged(s);
    assert s[..2] == d && s[2..] == j;
  }

  lemma ParseWindowsRelative(j: string)
    requires '/' !in j && (j == "" || (j[0] != '\\' && (|j| < 2 || j[1] != ':')))
    ensures ParseWindows(j) == PurePath("", "", Segments(j, '\\'))
  {
    BackslashesUnchanged(j);
  }

  lemma ParseFormatWindowsRelative(p: PurePath)
    requires WellFormed(Windows, p) && p.drive == "" && p.root == "" && p.parts != []
    ensures ParseWindows(Format(Windows, p)) == p
  {
    if DriveLike(p.parts[0]) {
      ParseFormatWindowsDotted(p.parts);
    } else {
      ParseFormatWindowsPlain(p.parts);
    }
  }

  /** A relative path whose first segment reads as a drive is printed after ".\". */
  lemma ParseFormatWindowsDotted(parts: seq<string>)
    requires ValidParts(Windows, parts) && parts != [] && DriveLike(parts[0])
    ensures ParseWindows(Format(Windows, PurePath("", "", parts))) == PurePath("", "", parts)
  {
    var j := JoinWith(parts, '\\');
    var dotted := ["."] + parts;
    assert dotted[1..] == parts;
    assert ".\\" + j == JoinWith(dotted, '\\');
    JoinWithAvoids(dotted, '\\', '/');
    ParseWindowsRelative(".\\" + j);
    SplitJoin(dotted, '\\');
    KeepAll(parts);
    assert Keep(dotted) == parts;
    assert Format(Windows, PurePath("", "", parts)) == ".\\" + j;
  }

  /** Any other relative path is printed as its segments joined. */
  lemma ParseFormatWindowsPlain(parts: seq<string>)
    requires ValidParts(Windows, parts) && parts != [] && !DriveLike(parts[0])
    ensures ParseWindows(Format(Windows, PurePath("", "", parts))) == PurePath("", "", parts)
  {
    var j := JoinWith(parts, '\\');
    SegmentsOfJoin(Windows, parts);
    JoinWithAvoids(parts, '\\', '/');
    PlainJoinIsRelative(parts);
    ParseWindowsRelative(j);
    assert Format(Windows, PurePath("", "", parts)) == j;
  }

  /** Joined segments that do not start with a drive-like one do not read as drive or root. */
  lemma PlainJoinIsRelative(parts: seq<string>)
    requires ValidParts(Windows, parts) && parts != [] && !DriveLike(parts[0])
    ensures var j := JoinWith(parts, '\\');
            j != [] && j[0] != '\\' && (|j| < 2 || j[1] != ':')
  {
    var j, x := JoinWith(parts, '\\'), parts[0];
    JoinWithFirst(parts, '\\');
    assert j[..|x|] == x && |x| >= 1;
    assert j[0] == x[0];
    if |j| >= 2 {
      if |x| >= 2 {
        assert j[1] == x[1];
      } else {
        assert |parts| >= 2;
        assert j[1] == '\\';
      }
    }
  }

  /** What the parsers look at in the join of valid segments. */
  lemma JoinOfValidParts(style: Style, parts: seq<string>)
    requires ValidParts(style, parts)
    ensures var j := JoinWith(parts, Sep(style));
            Segments(j, Sep(style)) == parts &&
            (j == "" <==> parts == []) &&
            (j != "" ==> j[0] != Sep(style) && j[0] == parts[0][0]) &&
            (style == Windows ==> '/' !in j)
  {
    SegmentsOfJoin(style, parts);
    if style == Windows {
      JoinWithAvoids(parts, '\\', '/');
    }
    if parts != [] {
      JoinWithFirst(parts, Sep(style));
    }
  }

  lemma ParseFormatWindows(p: PurePath)
    requires WellFormed(Windows, p)
    ensures ParseWindows(Format(Windows, p)) == p
  {
    if p.drive == "" && p.root == "" {
      if p.parts == [] {
        DotHasNoSegments('\\');
        ParseWindowsRelative(".");
      } else {
        ParseFormatWindowsRelative(p);
      }
    } else {
      ParseFormatWindowsAnchored(p);
    }
  }

  /** The round trip for a Windows path with a drive, a root or both. */
  lemma ParseFormatWindowsAnchored(p: PurePath)
    requires WellFormed(Windows, p) && (p.drive != "" || p.root != "")
    ensures ParseWindows(Format(Windows, p)) == p
  {
    if p.drive == "" {
      ParseFormatWindowsRooted(p.parts);
    } else if p.root == "" {
      ParseFormatWindowsDrive(p.drive, p.parts);
    } else {
      ParseFormatWindowsDriveRoot(p.drive, p.parts);
    }
  }

  lemma ParseFormatWindowsRooted(parts: seq<string>)
    requires ValidParts(Windows, parts)
    ensures ParseWindows(Format(Windows, PurePath("", "\\", parts))) == PurePath("", "\\", parts)
  {
    var j := JoinWith(parts, '\\');
    JoinOfValidParts(Windows, parts);
    assert '/' !in j && (j == "" || j[0] != '\\');
    ParseWindowsRooted(j);
    assert Format(Windows, PurePath("", "\\", parts)) == "\\" + j;
  }

  lemma ParseFormatWindowsDrive(d: string, parts: seq<string>)
    requires ValidDrive(d) && ValidParts(Windows, parts)
    ensures ParseWindows(Format(Windows, PurePath(d, "", parts))) == PurePath(d, "", parts)
  {
    var j := JoinWith(parts, '\\');
    JoinOfValidParts(Windows, parts);
    assert '/' !in j && (j == "" || j[0] != '\\');
    ParseWindowsDrive(d, j);
    assert Format(Windows, PurePath(d, "", parts)) == d + j;
  }

  lemma ParseFormatWindowsDriveRoot(d: string, parts: seq<string>)
    requires ValidDrive(d) && ValidParts(Windows, parts)
    ensures ParseWindows(Format(Windows, PurePath(d, "\\", parts))) == PurePath(d, "\\", parts)
  {
    var j := JoinWith(parts, '\\');
    JoinOfValidParts(Windows, parts);
    assert Format(Windows, PurePath(d, "\\", parts)) == d + "\\" + j;
    ParseWindowsDriveRoot(d, j);
  }

  /** pathlib's string form parses back to the same path (for a well-formed path). */
  lemma ParseFormat(style: Style, p: PurePath)
    requires WellFormed(style, p)
    ensures Parse(style, Format(style, p)) == p
  {
    if style == Posix { ParseFormatPosix(p); } else { ParseFormatWindows(p); }
  }

  /** Normalising twice is normalising once. */
  lemma NormaliseIdempotent(style: Style, s: string)
    ensures Normalise(style, Normalise(style, s)) == Normalise(style, s)
  {
    ParseFormat(style, Parse(style, s));
  }

  // ---------------------------------------------------------------------
  // remote_path
  // ---------------------------------------------------------------------

  /**
   * The test is anchored at the start and looks at three characters only:
   * whatever follows them does not change the style.
   */
  lemma StyleAnchoredAtStart(s: string, t: string)
    requires |s| >= 3
    ensures StyleOf(s + t) == StyleOf(s)
    ensures RemotePath(s + t).0 == RemotePath(s).0
  {
    assert (s + t)[..3] == s[..3];
  }

  /**
   * A path printed with a drive letter and a root, or printed rooted in
   * POSIX style, is detected in the style it was printed in and parses back
   * to itself.
   */
  lemma RemotePathOfFormat(style: Style, p: PurePath)
    requires WellFormed(style, p)
    requires style == Windows ==> |p.drive| == 2 && IsAsciiLetter(p.drive[0]) && p.root == "\\"
    requires style == Posix ==> p.root != ""
    ensures RemotePath(Format(style, p)) == (style, p)
  {
    ParseFormat(style, p);
    FormatShape(style, p);
    var f := Format(style, p);
    if style == Windows {
      assert f[..3] == p.drive + "\\";
      assert LooksWindows(f);
    } else {
      assert f[0] == '/';
      assert !LooksWindows(f);
    }
  }

  /**
   * Style detection: a drive letter, a colon and a separator make a Windows
   * path; anything else is POSIX.
   */
  lemma StyleExamples()
    ensures StyleOf("C:\\Users\\x") == Windows
    ensures StyleOf("d:/data") == Windows
    ensures StyleOf("/home/x") == Posix
    ensures StyleOf("relative/x") == Posix
    ensures StyleOf("C:") == Posix
    ensures StyleOf("C:x") == Posix
    ensures StyleOf("1:\\x") == Posix
    ensures StyleOf("\\\\server\\share") == Posix
  {
  }

  // ---------------------------------------------------------------------
  // changedir(folder, "..")
  // ---------------------------------------------------------------------

  /** The two computing branches of `changedir`, with the style named. */
  lemma ChangeDirUp(folder: string)
    ensures var style := StyleOf(folder);
            ChangeDir(folder, "..") == Format(style, Parent(Parse(style, folder)))
  {
  }

  lemma ChangeDirInto(folder: string, entry: string)
    requires entry != "." && entry != ".."
    ensures var style := StyleOf(folder);
            WellFormed(style, Parse(style, folder)) && WellFormed(style, Parse(style, entry)) &&
            ChangeDir(folder, entry) == Format(style, Join(style, Parse(style, folder), Parse(style, entry)))
  {
  }

  // ---------------------------------------------------------------------
  // changedir(folder, "..") laws
  // ---------------------------------------------------------------------

  /**
   * Read back in the folder's style, `changedir(folder, "..")` is the
   * lexical parent: same drive and root (it never climbs above the root),
   * one segment fewer, or no change at a root.
   */
  lemma ChangeDirParent(folder: string)
    ensures var (style, p) := RemotePath(folder);
            var q := Parse(style, ChangeDir(folder, ".."));
            q.drive == p.drive && q.root == p.root &&
            (p.parts == [] ==> q.parts == []) &&
            (p.parts != [] ==> q.parts + [p.parts[|p.parts| - 1]] == p.parts)
  {
    var (style, p) := RemotePath(folder);
    ParseFormat(style, Parent(p));
  }

  /**
   * A root (POSIX "/" or "//", a bare drive root such as "C:\", or the
   * empty path ".") is its own parent: ".." yields the root as pathlib
   * prints it, and going up again does not move.
   */
  lemma RootIsOwnParent(folder: string)
    requires RemotePath(folder).1.parts == []
    ensures ChangeDir(folder, "..") == Normalise(StyleOf(folder), folder)
    ensures ChangeDir(ChangeDir(folder, ".."), "..") == ChangeDir(folder, "..")
  {
    var (style, p) := RemotePath(folder);
    var r := ChangeDir(folder, "..");
    assert r == Format(style, p);
    ParseFormat(style, p);
    if style == Windows {
      assert r == folder[..2] + "\\";
      assert LooksWindows(r);
    } else {
      assert |r| < 3;
    }
  }

  lemma RootExamples()
    ensures ChangeDir("/", "..") == "/"
    ensures ChangeDir("//", "..") == "//"
    ensures ChangeDir("///", "..") == "/"
    ensures ChangeDir("", "..") == "."
    ensures ChangeDir("C:\\", "..") == "C:\\"
    ensures ChangeDir("C:/", "..") == "C:\\"
  {
    PosixRootsUp();
    EmptyFolderUp();
    DriveRootsUp();
  }

  lemma PosixRootsUp()
    ensures ChangeDir("/", "..") == "/"
    ensures ChangeDir("//", "..") == "//"
    ensures ChangeDir("///", "..") == "/"
  {
    assert Split("", '/') == [""];
    assert "///"[1..] == "//";
    assert Split("/", '/') == ["", ""];
    assert Split("//", '/') == ["", "", ""];
    assert ParsePosix("/") == PurePath("", "/", []);
    assert ParsePosix("//") == PurePath("", "//", []);
    assert ParsePosix("///") == PurePath("", "/", []);
    ChangeDirUp("/");
    ChangeDirUp("//");
    ChangeDirUp("///");
  }

  lemma EmptyFolderUp()
    ensures ChangeDir("", "..") == "."
  {
    assert Split("", '/') == [""];
    assert ParsePosix("") == PurePath("", "", []);
    ChangeDirUp("");
  }

  lemma DriveRootsUp()
    ensures ChangeDir("C:\\", "..") == "C:\\"
    ensures ChangeDir("C:/", "..") == "C:\\"
  {
    assert "C:\\" == "C:" + ['\\'] && "C:/" == "C:" + ['/'];
    DriveRootUp("C:", '\\');
    DriveRootUp("C:", '/');
  }

  /** A bare drive root, with either separator, is its own parent, printed with `\`. */
  lemma DriveRootUp(d: string, c: char)
    requires ValidDrive(d) && IsAsciiLetter(d[0]) && (c == '/' || c == '\\')
    ensures ChangeDir(d + [c], "..") == d + "\\"
  {
    var s := d + [c];
    assert ToBackslashes(s) == ToBackslashes(d + "\\" + "");
    ParseWindowsDriveRoot(d, "");
    assert Split("", '\\') == [""];
    assert ParseWindows(s) == PurePath(d, "\\", []);
    assert LooksWindows(s);
    ChangeDirUp(s);
    FormatAnchored(Windows, d, "\\", []);
  }



  // ---------------------------------------------------------------------
  // changedir(folder, segment) and back
  // ---------------------------------------------------------------------

  /**
   * For a POSIX folder, a plain entry is exactly one new segment, whatever
   * it looks like: backslashes and drive letters in it are ordinary
   * characters, because the style comes from the folder alone.
   */
  lemma AppendSegmentPosix(folder: string, s: string)
    requires !LooksWindows(folder)
    requires ValidPart(Posix, s) && s != ".."
    ensures var p := ParsePosix(folder);
            ChangeDir(folder, s) == Format(Posix, p.(parts := p.parts + [s])) &&
            ParsePosix(ChangeDir(folder, s)) == p.(parts := p.parts + [s])
  {
    var p := ParsePosix(folder);
    SingleSegment(Posix, s);
    assert s[0] != '/';
    ParseFormatPosix(p.(parts := p.parts + [s]));
  }

  /**
   * For a Windows folder, a plain entry that does not read as a drive is
   * one new segment, and the result is still a Windows path.
   */
  lemma AppendSegmentWindows(folder: string, s: string)
    requires LooksWindows(folder)
    requires ValidPart(Windows, s) && s != ".." && !DriveLike(s)
    ensures LooksWindows(ChangeDir(folder, s))
    ensures var p := ParseWindows(folder);
            ParseWindows(ChangeDir(folder, s)) == p.(parts := p.parts + [s])
  {
    var p := ParseWindows(folder);
    SingleSegment(Windows, s);
    BackslashesUnchanged(s);
    assert s[0] != '\\';
    assert ParseWindows(s) == PurePath("", "", [s]);
    var q := p.(parts := p.parts + [s]);
    ParseFormatWindows(q);
    var r := ChangeDir(folder, s);
    assert r == q.drive + "\\" + JoinWith(q.parts, '\\');
    assert r[..2] == folder[..2] && r[2] == '\\';
  }

  /**
   * A relative entry with separators inside (`a/b`, `../x`, `x/`) adds its
   * segments, in order, to a POSIX folder: empty and "." pieces vanish and
   * ".." stays a segment.
   */
  lemma AppendRelativePosix(folder: string, e: string)
    requires !LooksWindows(folder)
    requires e != "." && e != ".." && (e == "" || e[0] != '/')
    ensures var p := ParsePosix(folder);
            ParsePosix(ChangeDir(folder, e)) == p.(parts := p.parts + Segments(e, '/'))
  {
    var p := ParsePosix(folder);
    assert ParsePosix(e) == PurePath("", "", Segments(e, '/'));
    ParseFormatPosix(p.(parts := p.parts + Segments(e, '/')));
  }

  /**
   * The same for a Windows folder and an entry with neither drive nor root:
   * its segments, with either separator, are appended in order.
   */
  lemma AppendRelativeWindows(folder: string, e: string)
    requires LooksWindows(folder)
    requires e != "." && e != ".."
    requires ParseWindows(e).drive == "" && ParseWindows(e).root == ""
    ensures var p := ParseWindows(folder);
            ParseWindows(ChangeDir(folder, e)) == p.(parts := p.parts + ParseWindows(e).parts)
  {
    var p := ParseWindows(folder);
    ParseFormatWindows(p.(parts := p.parts + ParseWindows(e).parts));
  }

  /**
   * `changedir(changedir(folder, s), "..")` is the folder as pathlib prints
   * it, for a POSIX folder and a plain segment, provided the intermediate
   * string is not itself taken for a Windows path.
   */
  lemma AppendThenParentPosix(folder: string, s: string)
    requires !LooksWindows(folder)
    requires ValidPart(Posix, s) && s != ".."
    requires !LooksWindows(ChangeDir(folder, s))
    ensures ChangeDir(ChangeDir(folder, s), "..") == Normalise(Posix, folder)
  {
    AppendSegmentPosix(folder, s);
    var p := ParsePosix(folder);
    assert Parent(p.(parts := p.parts + [s])) == p;
  }

  /**
   * The append/parent inverse for an absolute POSIX folder as pathlib
   * prints it (by `ParseFormat`, exactly the normalised absolute folders).
   */
  lemma AppendThenParentAbsolute(p: PurePath, s: string)
    requires WellFormed(Posix, p) && p.root != ""
    requires ValidPart(Posix, s) && s != ".."
    ensures ChangeDir(ChangeDir(Format(Posix, p), s), "..") == Format(Posix, p)
  {
    var folder := Format(Posix, p);
    FormatShape(Posix, p);
    assert folder[0] == '/' && !LooksWindows(folder);
    ParseFormatPosix(p);
    var q := p.(parts := p.parts + [s]);
    AppendSegmentPosix(folder, s);
    var mid := ChangeDir(folder, s);
    FormatShape(Posix, q);
    assert mid[0] == '/' && !LooksWindows(mid);
    AppendThenParentPosix(folder, s);
  }

  /**
   * The append/parent inverse for a Windows folder and a segment that does
   * not read as a drive; `DriveEntryBreaksInverseWindows` shows why a
   * drive-like segment has to be excluded.
   */
  lemma AppendThenParentWindows(folder: string, s: string)
    requires LooksWindows(folder)
    requires ValidPart(Windows, s) && s != ".." && !DriveLike(s)
    ensures ChangeDir(ChangeDir(folder, s), "..") == Normalise(Windows, folder)
  {
    AppendSegmentWindows(folder, s);
    var p := ParseWindows(folder);
    assert Parent(p.(parts := p.parts + [s])) == p;
  }

  /**
   * Because the style is detected again from every string, a relative
   * POSIX folder can turn into a Windows one. A folder named like a drive
   * ("a:") gets the child "a:/x", which reads as a Windows path, so going
   * back up gives "a:\" instead of "a:".
   */
  lemma DriveNamedFolderBreaksInverse(d: string, x: string)
    requires ValidDrive(d) && IsAsciiLetter(d[0])
    requires ValidPart(Windows, x) && x != ".."
    ensures ChangeDir(d, x) == d + "/" + x
    ensures ChangeDir(ChangeDir(d, x), "..") == d + "\\"
    ensures Normalise(Posix, d) == d != d + "\\"
  {
    SingleSegment(Posix, d);
    assert ParsePosix(d) == PurePath("", "", [d]);
    assert Normalise(Posix, d) == JoinWith([d], '/') == d;
    AppendSegmentPosix(d, x);
    assert JoinWith([d, x], '/') == d + "/" + x;
    WindowsChildParent(d + "/" + x, d, x);
  }

  /**
   * The same from ".": entering "C:\x" (one POSIX segment) gives "C:\x",
   * whose parent is then "C:\" and not ".".
   */
  lemma DotEnteringDrivePathBreaksInverse(d: string, x: string)
    requires ValidDrive(d) && IsAsciiLetter(d[0])
    requires ValidPart(Windows, x) && x != ".."
    ensures ChangeDir(".", d + "\\" + x) == d + "\\" + x
    ensures ChangeDir(ChangeDir(".", d + "\\" + x), "..") == d + "\\"
  {
    var e := d + "\\" + x;
    assert '/' !in e;
    assert e != "." && e != ".." && e != "";
    DotHasNoSegments('/');
    assert ParsePosix(".") == PurePath("", "", []);
    assert !LooksWindows(".");
    AppendSegmentPosix(".", e);
    assert JoinWith([e], '/') == e;
    WindowsChildParent(e, d, x);
  }

  /**
   * On a Windows folder a segment named like a drive is not a segment. The
   * folder's own drive ("C:" under "C:\x") leaves the folder as it is, so
   * `..` then goes one level above it; another drive ("a:") replaces the
   * folder with a bare drive-relative string that is read back as POSIX,
   * whose parent is ".".
   */
  lemma DriveEntryBreaksInverseWindows(d: string, e: string, x: string)
    requires ValidDrive(d) && IsAsciiLetter(d[0]) && ValidDrive(e)
    requires ValidPart(Windows, x) && x != ".."
    ensures e == d ==> ChangeDir(d + "\\" + x, e) == d + "\\" + x
    ensures e == d ==> ChangeDir(ChangeDir(d + "\\" + x, e), "..") == d + "\\"
    ensures !SameDriveIgnoringCase(e, d) ==> ChangeDir(d + "\\" + x, e) == e
    ensures !SameDriveIgnoringCase(e, d) ==> ChangeDir(ChangeDir(d + "\\" + x, e), "..") == "."
    ensures Normalise(Windows, d + "\\" + x) == d + "\\" + x
  {
    var folder := d + "\\" + x;
    assert LooksWindows(folder);
    SingleSegment(Windows, x);
    ParseWindowsDriveRoot(d, x);
    var p := PurePath(d, "\\", [x]);
    assert JoinWith([x], '\\') == x;
    assert Format(Windows, p) == folder;
    assert Split("", '\\') == [""];
    assert Segments("", '\\') == [];
    ParseWindowsDrive(e, "");
    assert e + "" == e;
    assert ParseWindows(e) == PurePath(e, "", []);
    assert e != "." && e != "..";
    ChangeDirInto(folder, e);
    if e == d {
      assert Join(Windows, p, PurePath(e, "", [])) == p;
      WindowsChildParent(folder, d, x);
    } else if !SameDriveIgnoringCase(e, d) {
      assert Join(Windows, p, PurePath(e, "", [])) == PurePath(e, "", []);
      assert Format(Windows, PurePath(e, "", [])) == e;
      assert !LooksWindows(e);
      SingleSegment(Posix, e);
      assert ParsePosix(e) == PurePath("", "", [e]);
      ChangeDirUp(e);
      assert Format(Posix, PurePath("", "", [])) == ".";
    }
  }

  /** The parent of a one-segment Windows path `d\x` (either separator) is `d\`. */
  lemma WindowsChildParent(s: string, d: string, x: string)
    requires ValidDrive(d) && ValidPart(Windows, x) && IsAsciiLetter(d[0])
    requires s == d + "/" + x || s == d + "\\" + x
    ensures ChangeDir(s, "..") == d + "\\"
  {
    var t := d + "\\" + x;
    assert ToBackslashes(s) == t;
    SingleSegment(Windows, x);
    ParseWindowsDriveRoot(d, x);
    assert ParseWindows(s) == ParseWindows(t) == PurePath(d, "\\", [x]);
    assert LooksWindows(s);
  }

  // ---------------------------------------------------------------------
  // Absolute entries
  // ---------------------------------------------------------------------

  /** An absolute entry replaces a POSIX folder: the result is the entry as pathlib prints it. */
  lemma AbsoluteEntryPosix(folder: string, entry: string)
    requires !LooksWindows(folder)
    requires |entry| > 0 && entry[0] == '/'
    ensures ChangeDir(folder, entry) == Normalise(Posix, entry)
  {
    assert entry != "." && entry != "..";
  }

  lemma EtcExample(folder: string)
    requires !LooksWindows(folder)
    ensures ChangeDir(folder, "/etc") == "/etc"
  {
    AbsoluteEntryPosix(folder, "/etc");
    SingleSegment(Posix, "etc");
    assert "/etc"[1..] == "etc";
  }

  /**
   * An entry that parses with a drive and a root (any character before the
   * colon, as `splitroot` reads it) replaces a Windows folder.
   */
  lemma AbsoluteEntryWindows(folder: string, entry: string)
    requires LooksWindows(folder)
    requires ParseWindows(entry).drive != "" && ParseWindows(entry).root != ""
    ensures ChangeDir(folder, entry) == Normalise(Windows, entry)
  {
    assert entry != "." && entry != "..";
    ChangeDirInto(folder, entry);
  }

  /** An entry with a root but no drive keeps the Windows folder's drive. */
  lemma RootedEntryWindows(folder: string, entry: string)
    requires LooksWindows(folder)
    requires |entry| > 0 && (entry[0] == '/' || entry[0] == '\\')
    ensures ChangeDir(folder, entry) == folder[..2] + Normalise(Windows, entry)
  {
    ChangeDirInto(folder, entry);
    var q := ParseWindowsLeadingSeparator(entry);
    assert RemotePath(folder) == (Windows, ParseWindows(folder));
    RootedJoinWindows(ParseWindows(folder), q);
  }

  /** Joining a rooted path without drive keeps the drive and prints the entry after it. */
  lemma RootedJoinWindows(p: PurePath, q: PurePath)
    requires WellFormed(Windows, p) && WellFormed(Windows, q) && q.drive == "" && q.root == "\\"
    ensures Format(Windows, Join(Windows, p, q)) == p.drive + Format(Windows, q)
  {
    var j := JoinWith(q.parts, '\\');
    assert Join(Windows, p, q) == PurePath(p.drive, "\\", q.parts);
    FormatAnchored(Windows, p.drive, "\\", q.parts);
    FormatAnchored(Windows, "", "\\", q.parts);
    assert p.drive + "\\" + j == p.drive + ("\\" + j);
  }

  /** A string starting with either separator parses as rooted without a drive. */
  lemma ParseWindowsLeadingSeparator(s: string) returns (q: PurePath)
    requires |s| > 0 && (s[0] == '/' || s[0] == '\\')
    ensures q == ParseWindows(s) && q.drive == "" && q.root == "\\"
  {
    assert ToBackslashes(s)[0] == '\\';
    q := ParseWindows(s);
  }

  /** `str()` of a path with a drive or a root. */
  lemma FormatAnchored(style: Style, drive: string, root: string, parts: seq<string>)
    requires drive != "" || root != ""
    ensures Format(style, PurePath(drive, root, parts)) == drive + root + JoinWith(parts, Sep(style))
  {
  }

  /**
   * A drive-relative entry (a drive, no root, any number of segments) on
   * another drive, compared ignoring ASCII case, replaces the folder.
   */
  lemma DriveRelativeOtherDrive(folder: string, e: string)
    requires LooksWindows(folder)
    requires ParseWindows(e).drive != "" && ParseWindows(e).root == ""
    requires !SameDriveIgnoringCase(ParseWindows(e).drive, folder[..2])
    ensures ChangeDir(folder, e) == Normalise(Windows, e)
  {
    assert e != "." && e != "..";
    ChangeDirInto(folder, e);
    assert ParseWindows(folder).drive == folder[..2];
  }

  /**
   * A drive-relative entry on the folder's own drive, in either case, has
   * its segments appended under the folder's root and takes the entry's
   * spelling of the drive.
   */
  lemma DriveRelativeSameDrive(folder: string, e: string)
    requires LooksWindows(folder)
    requires ParseWindows(e).drive != "" && ParseWindows(e).root == ""
    requires SameDriveIgnoringCase(ParseWindows(e).drive, folder[..2])
    ensures var p, q := ParseWindows(folder), ParseWindows(e);
            ParseWindows(ChangeDir(folder, e)) == PurePath(q.drive, "\\", p.parts + q.parts)
  {
    assert e != "." && e != "..";
    ChangeDirInto(folder, e);
    var p, q := ParseWindows(folder), ParseWindows(e);
    assert p.drive == folder[..2] && p.root == "\\";
    ParseFormatWindows(PurePath(q.drive, "\\", p.parts + q.parts));
  }

  /** A single relative POSIX segment has parent ".". */
  lemma SingleSegmentParent(x: string)
    requires ValidPart(Posix, x) && !LooksWindows(x)
    ensures ChangeDir(x, "..") == "."
  {
    SingleSegment(Posix, x);
    assert ParsePosix(x) == PurePath("", "", [x]);
    ChangeDirUp(x);
  }
}
