# EtherGhost web backend: remote path algebra and session registry

This project models the two pieces of real logic in the EtherGhost web
backend (`guiren/main.py`). Everything else in that file is HTTP wiring.

1. **Remote path algebra.** `remote_path` decides whether a directory string
   on the remote host is a Windows path or a POSIX path. `changedir` uses
   it to emulate `cd`: the webshell keeps no working directory, so the
   client works out the next directory itself. The model re-implements the
   `pathlib` operations the Python code uses: `PurePosixPath`, the
   drive-root-segments part of `PureWindowsPath`, `str()`, `.parent` and
   `/`. These follow CPython 3.12. A parsed path is a drive, a root and a
   list of segments. Parsing splits on the separator. It drops empty and
   `.` segments and keeps `..`, because pure paths are purely lexical.
   `changedir` returns the string form of the path, which is what the web
   layer sends back.
2. **Session registry handlers.** The session store (`session_manager`) is
   a `SessionStore` object holding a map from session id to connection
   profile. Every handler except `test_webshell` gets the store as a parameter; `test_webshell` gets only the profile it is to probe. `update_webshell`
   and `delete_session` are methods that change the store step by step.
   The other handlers are functions that read it. A reply is a code plus
   either data or a message. Code 0 is success, -400 is an unknown id and
   -500 is a transport failure. The transport calls (`test_usablility`,
   `execute_cmd`, `get_pwd`, `list_dir`) are function parameters. Each one
   either returns a value or raises `NetworkError` or `UnexpectedError`.

Files: `remote_path.dfy` (module `RemotePaths`, the definitions),
`remote_path_laws.dfy` (module `RemotePathLaws`, the lemmas), and
`sessions.dfy` (module `Sessions`).

**Where the code and the expected behaviour differ.** One would expect the
path style of a session to be fixed once. The code instead detects it again
from each string. The model follows the code. As a result, the append/parent inverse
can fail for a relative POSIX folder whose child string looks like a
Windows path:

- `changedir(changedir("a:", "x"), "..")` gives `a:\`, not `a:`.
- `changedir(changedir(".", "C:\x"), "..")` gives `C:\`, not `.`.

`DriveNamedFolderBreaksInverse` and `DotEnteringDrivePathBreaksInverse`
prove this for every such drive name and segment. The inverse laws carry
the matching side condition. It always holds for absolute POSIX folders. For
Windows folders it holds for every segment that does not read as a drive.
A drive-like segment breaks it (`DriveEntryBreaksInverseWindows`):

- `changedir("C:\x", "C:")` gives `C:\x`, so `..` then gives `C:\`.
- `changedir("C:\x", "a:")` gives `a:`, whose parent is `.`.

One would also expect a plain absolute entry to replace the folder. For a
Windows folder that is not quite so: an entry with a root but no drive,
such as `/etc`, keeps the folder's drive (`RootedEntryWindows`).

## Model

| member | source | states |
|---|---|---|
| `RemotePaths.RemotePath` | guiren/main.py:18-22 | Windows is chosen exactly when the string passes the drive-letter test. The Windows parse then has the string's first two characters as drive, an ASCII letter first, and root `\`. The POSIX parse has no drive, and it has a root exactly when the string starts with `/`. |
| `RemotePathLaws.StyleExamples` | guiren/main.py:19 | `C:\Users\x` and `d:/data` are Windows. `/home/x`, `relative/x`, `C:`, `C:x`, `1:\x` and a UNC string are POSIX. |
| `RemotePaths.ChangeDir` | guiren/main.py:124-130 | Entry `.` returns the folder string verbatim, with no normalisation. Any other entry gives a non-empty string. |
| `RemotePaths.Split` | guiren/main.py:20-22 | Splitting gives at least one piece. No piece holds the separator, every character of a piece comes from the input, and joining the pieces with the separator gives back the input. |
| `RemotePaths.Keep` | guiren/main.py:20-22 | The kept segments are never empty or `.`, and each is one of the input pieces. Every piece other than `""` and `.` is kept. |
| `RemotePaths.Segments` | guiren/main.py:20-22 | A parsed segment contains only characters of the input and never the separator. Every piece of the split other than `""` and `.` is a segment. |
| `RemotePathLaws.SplitAtSeparator` | guiren/main.py:20-22 | Splitting `a + sep + b` gives the pieces of `a` followed by the pieces of `b`. |
| `RemotePathLaws.KeepAppend` | guiren/main.py:20-22 | Dropping `""` and `.` from two lists of pieces in a row gives the two kept lists in a row, so the kept pieces stay in order. |
| `RemotePathLaws.SegmentsAtSeparator` | guiren/main.py:20-22 | The segments of `a + sep + b` are those of `a` followed by those of `b`. Repeated, leading and trailing separators and `./` add no segment. |
| `RemotePaths.JoinWith` | guiren/main.py:127-130 | `str.join`: the pieces with the separator between them. `JoinWithFirst` states its shape and `SplitJoin` shows that splitting undoes it. |
| `RemotePathLaws.JoinWithFirst` | guiren/main.py:127-130 | `str.join` output starts with the first piece and ends with the last. A separator follows the first piece when more pieces follow. |
| `RemotePaths.Parse` | guiren/main.py:20-22 | Parsing any string in either style gives a well-formed path of that style. |
| `RemotePaths.Format` | guiren/main.py:127-130 | `str(path)`: drive, root, then the segments joined by the separator; `.` for the empty path, and a `.\` prefix for a relative Windows path whose first segment looks like a drive. `FormatShape` states its shape and `ParseFormat` shows that parsing undoes it. |
| `RemotePathLaws.FormatShape` | guiren/main.py:127-130 | `str()` of a path with valid segments is never empty and starts with its drive and root. Without drive and root it is `.` exactly for the empty path. A Windows path whose first segment looks like a drive is printed with a `.\` prefix. |
| `RemotePaths.Normalise` | guiren/main.py:20-22 | The string pathlib prints for any string is never empty. `NormaliseIdempotent` shows it is a fixpoint. |
| `RemotePaths.LooksWindows` | guiren/main.py:19 | The regex `^[a-zA-Z]:[/\\]`: an ASCII letter, a colon, then `/` or `\` as the first three characters. |
| `RemotePaths.StyleOf` | guiren/main.py:19-22 | Windows when the regex matches, POSIX otherwise. |
| `RemotePathLaws.StyleAnchoredAtStart` | guiren/main.py:19 | The match is anchored at the start and looks at three characters only, so what follows them never changes the style. |
| `RemotePathLaws.RemotePathOfFormat` | guiren/main.py:18-22 | A Windows path printed with a letter drive and a root, or a rooted POSIX path, is detected in its own style and parses back to itself. |
| `RemotePaths.SameDriveIgnoringCase` | guiren/main.py:130 | Two drives are the same when they match after lowering ASCII letters, as `ntpath.join` compares them with `.lower()`. |
| `RemotePaths.ParsePosix` | guiren/main.py:22 | Parsing any string gives a well-formed POSIX path: an empty drive, root "", "/" or "//", and valid segments. |
| `RemotePaths.ParseWindows` | guiren/main.py:20 | Parsing any string gives a well-formed Windows path. The drive is empty or two characters ending in a colon, the root is empty or `\`, and no segment holds `\` or `/`. |
| `RemotePaths.ToBackslashes` | guiren/main.py:20 | `/` becomes `\` and every other character is unchanged. |
| `RemotePaths.Parent` | guiren/main.py:127 | The parent keeps the drive and the root. A path with no segments is its own parent. Otherwise the parent plus the last segment is the path. |
| `RemotePaths.Join` | guiren/main.py:130 | Joining two well-formed paths gives a well-formed path. |
| `RemotePathLaws.SplitJoin` | guiren/main.py:20-22 | Splitting the join of separator-free pieces gives the pieces back. |
| `RemotePathLaws.SegmentsOfJoin` | guiren/main.py:20-22 | Parsing the join of valid segments gives the segments back. |
| `RemotePathLaws.ParseFormatPosix` | guiren/main.py:22 | A well-formed POSIX path parses back from its string form. |
| `RemotePathLaws.ParseFormatWindows` | guiren/main.py:20 | A well-formed Windows path parses back from its string form. This includes the `.\` prefix before a first segment that looks like a drive. |
| `RemotePathLaws.ParseFormat` | guiren/main.py:20-22 | A well-formed path in either style parses back from its string form. |
| `RemotePathLaws.NormaliseIdempotent` | guiren/main.py:20-22 | Normalising a string twice gives the same result as normalising it once. |
| `RemotePathLaws.ChangeDirParent` | guiren/main.py:126-127 | Parsed back in the folder's style, `..` gives the lexical parent. The drive and root stay the same, so the path never climbs above its root. The result has one segment fewer, or none at a root. |
| `RemotePathLaws.RootIsOwnParent` | guiren/main.py:126-127 | At a root (`/`, `//`, a drive root such as `C:\`, or `.`), `..` gives the root as pathlib prints it. Applying `..` again does not move. |
| `RemotePathLaws.RootExamples` | guiren/main.py:126-127 | `..` maps `/` to `/`, `//` to `//`, `///` to `/`, the empty string to `.`, and both `C:\` and `C:/` to `C:\`. |
| `RemotePathLaws.SingleSegmentParent` | guiren/main.py:126-127 | For a folder that is one relative POSIX segment, `..` gives `.`. |
| `RemotePathLaws.AppendSegmentPosix` | guiren/main.py:130 | For a POSIX folder, a plain entry becomes exactly one new segment, however it looks. Backslashes and drive letters in it are ordinary characters, because the style comes from the folder alone. |
| `RemotePathLaws.AppendSegmentWindows` | guiren/main.py:130 | For a Windows folder, a plain entry that does not look like a drive becomes one new segment. The result is still detected as Windows. |
| `RemotePathLaws.AppendRelativePosix` | guiren/main.py:130 | For a POSIX folder, a relative entry with separators inside (`a/b`, `../x`, `x/`) adds its segments in order. Empty and `.` pieces vanish and `..` stays a segment. |
| `RemotePathLaws.AppendRelativeWindows` | guiren/main.py:130 | For a Windows folder, an entry with neither drive nor root adds its segments, with either separator, in order. |
| `RemotePathLaws.AppendThenParentPosix` | guiren/main.py:126-130 | For a POSIX folder and a plain segment, `..` after entering the segment gives the normalised folder. This holds when the intermediate string is not taken for a Windows path. |
| `RemotePathLaws.AppendThenParentAbsolute` | guiren/main.py:126-130 | For an absolute POSIX folder as pathlib prints it, entering a plain segment and then `..` gives back exactly the folder. By `ParseFormat`, these are exactly the normalised absolute folders. |
| `RemotePathLaws.AppendThenParentWindows` | guiren/main.py:126-130 | For a Windows folder, entering a plain segment that does not look like a drive and then `..` gives the normalised folder. |
| `RemotePathLaws.DriveEntryBreaksInverseWindows` | guiren/main.py:126-130 | Let the folder be `d\x`. Entering its own drive `d` leaves the folder as it is, so `..` then gives `d\`. Entering another drive `e` gives `e`, which reads back as POSIX, so `..` then gives `.`. |
| `RemotePathLaws.DriveNamedFolderBreaksInverse` | guiren/main.py:18-22 | Take a relative POSIX folder named like a drive, such as `a:`, and a segment `x`. Entering `x` gives `a:/x`, which then reads as Windows, so `..` gives `a:\` instead of `a:`. |
| `RemotePathLaws.DotEnteringDrivePathBreaksInverse` | guiren/main.py:18-22 | From `.`, the entry `C:\x` becomes the string `C:\x`, and its parent is `C:\`, not `.`. |
| `RemotePathLaws.WindowsChildParent` | guiren/main.py:127 | The parent of `d\x` or `d/x` is `d\`. |
| `RemotePathLaws.AbsoluteEntryPosix` | guiren/main.py:130 | For a POSIX folder, an entry starting with `/` replaces the folder. The result is the entry as pathlib prints it. |
| `RemotePathLaws.EtcExample` | guiren/main.py:130 | For any POSIX folder, entering `/etc` gives `/etc`. |
| `RemotePathLaws.AbsoluteEntryWindows` | guiren/main.py:130 | For a Windows folder, any entry that parses with both a drive and a root replaces the folder and is normalised in Windows style. The drive may be any character followed by a colon, such as `1:\y`. |
| `RemotePathLaws.RootedEntryWindows` | guiren/main.py:130 | For a Windows folder, an entry with a root but no drive keeps the folder's drive. |
| `RemotePathLaws.DriveRelativeOtherDrive` | guiren/main.py:130 | For a Windows folder, any drive-relative entry on another drive replaces the folder and is normalised in Windows style. A drive-relative entry has a drive and no root, and may have any number of segments, such as `D:a\b`. Drives are compared ignoring ASCII case. |
| `RemotePathLaws.DriveRelativeSameDrive` | guiren/main.py:130 | For a Windows folder, any drive-relative entry on the same drive (ignoring ASCII case) gives a result that, parsed back in Windows style, has all of the entry's segments appended after the folder's segments, under the folder's root. The result takes the entry's spelling of the drive. |
| `Sessions.SessionStore.GetSessionInfoById` | guiren/main.py:41 | A lookup finds a profile exactly when the id is stored, the stored one, and that profile has the id it was looked up by. |
| `Sessions.SessionStore.ListSessions` | guiren/main.py:38 | The listing holds exactly the stored profiles. |
| `Sessions.OneProfilePerId` | guiren/main.py:38 | When every profile is filed under its own id, the listing has as many profiles as there are ids. |
| `Sessions.GetSessions` | guiren/main.py:34-44 | The code is -400 exactly when an id was given and nothing is stored under it, and then the message is "没有这个session". Otherwise the code is 0. Without an id the data is every profile. With an id it is the profile stored under that id. |
| `Sessions.UpdateWebshell` | guiren/main.py:58-64 | Afterwards the given profile is stored under its own id and every other id is unchanged. The key set gains only that id, the store stays consistent, and the reply is code 0 with data true. |
| `Sessions.DeleteSession` | guiren/main.py:112-121 | An unknown id gives -400 and leaves the store unchanged. A known id is removed, and only it, with code 0 and data true. |
| `Sessions.ReplyTo` | guiren/main.py:73-79 | The code is 0 exactly when the call returned, with its value as data. It is -500 exactly when the call raised. The message is the kind's prefix followed by the exception text. |
| `Sessions.CallSession` | guiren/main.py:70-79 | An unknown id gives -400 whatever the transport would do, so the transport is not called. A known id gives the reply for one call on the stored profile. |
| `Sessions.SessionExecuteCmd` | guiren/main.py:67-79 | An unknown id gives -400. Code 0 means the command ran on the stored profile and its output is the data. Code -500 means the transport raised, with the message "网络错误: " or "未知错误: " by the kind of the exception, followed by its text. |
| `Sessions.SessionGetPwd` | guiren/main.py:82-94 | The same as for executing a command, for the working-directory query: -400 for an unknown id, 0 with the directory, or -500 with the kind's prefix and the exception text. |
| `Sessions.SessionListDir` | guiren/main.py:97-109 | The same as for executing a command, for the directory listing of `current_dir`: -400 for an unknown id, 0 with the listing, or -500 with the kind's prefix and the exception text. |
| `Sessions.TestWebshell` | guiren/main.py:47-55 | A value gives code 0 with the value. A network error always gives -500 with "网络错误：" (full-width colon) and the exception text under "data". An unexpected error is not caught and escapes the handler. |
| `Sessions.SessionStore.AddSessionInfo` | guiren/main.py:63 | The new map is the old map with the profile filed under its id. |
| `Sessions.SessionStore.DeleteSessionInfoById` | guiren/main.py:62 | The new map is the old map without the id. |

## Left out

- HTTP plumbing is not modelled: the FastAPI app, the static mount, the no-cache middleware, the redirect to the index page, and JSON serialisation. It carries no logic of its own.
- The transport calls are parameters of the handlers. They are network I/O in a module this model does not include. `session_info_to_session` is not modelled either: the transport gets the stored profile directly.
- The internals and persistence of `session_manager` are abstracted to a map with lookup, insert, delete and list. `get_session_by_id` and `get_session_info_by_id` are one lookup here.
- `Sessions.SessionStore.ListSessions`: the "readable" redaction of `list_sessions_readable` is not modelled, because its code is not part of this model. The listing is a set, so its order is not modelled.
- Validating a UUID in the request is FastAPI's job and is not modelled. An id is a 128-bit number.
- Concurrency between requests is not modelled. Handlers run one at a time, so the window between the delete and the add in `update_webshell` cannot be observed.
- `RemotePaths.ParseWindows`: UNC prefixes (`\\server\share`) are parsed as a rooted path without a drive. pathlib would make them a UNC drive.
- `RemotePaths.Join`: drive letters are compared ignoring case for ASCII letters only. Python's `str.lower` also folds a few non-ASCII characters, such as the Kelvin sign.
- `RemotePaths.Join`: a drive-relative entry on the same drive takes the entry's spelling of the drive, as in Python 3.12. Python 3.11 and earlier keep the folder's spelling.
- Case-insensitive equality of Windows paths is not modelled. `changedir` never compares paths.
