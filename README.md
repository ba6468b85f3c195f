# BetterMonitor Agent for Android, modelled in Dafny

The BetterMonitor agent is an Android foreground service. It keeps one WebSocket connection
to a BetterMonitor control server and answers the server's JSON frames:

- heartbeats;
- directory listings, file reads, writes and creation, and directory trees;
- process listings and kills;
- interactive shell sessions without a pseudo-terminal. The agent echoes every keystroke
  itself and writes a whole line to the shell's stdin when Enter arrives.

This project models the core of that agent as Dafny:

- `wrappers.dfy`: `Option` and `Result`.
- `text.dfy`: the Kotlin string operations the agent relies on:
  - splitting on `\s+`, including the empty edge fields it keeps, with `\s` the class of
    Android's ICU-based `java.util.regex` (tab, newline, form feed, return and the Unicode
    separators);
  - `trim` and `startsWith`;
  - `toIntOrNull` and `toLongOrNull`, with their 32- and 64-bit ranges;
  - Kotlin's full `isWhitespace` set for `trim` and `isBlank`;
  - upper case exact wherever it yields an ASCII letter, lower case for ASCII letters;
  - `compareTo`, which orders strings by their UTF-16 code units.
- `models.dfy`: the frames of `network/Models.kt`. Inbound frames are modelled as what Gson
  leaves of them: the frame the handler's class reads, a frame whose type was read but
  which that class could not read, or a frame Gson could not read at all. Outbound frames
  are one datatype with a case per response class.
- `repository.dfy`: `AgentRepository`, a class holding its preferences, its running and
  connected flags, and its log buffer of at most 1000 lines.
- `transport.dfy`: `WebSocketClient`, a class holding the socket handle, the listener, the
  connected flag and every frame the socket accepted. A frame is accepted only while a
  socket handle exists and no close has been enqueued on it.
- `shell.dfy`: `ShellManager`. It has three layers:
  - the line editor as a pure function;
  - the session table as a value, where each session records whether its shell's stdin
    still accepts writes;
  - the class, whose methods are proved to move its state as the value-level functions say.
- `files.dfy`: `FileManager`. The device is an oracle `Fs`: what the File API reports, what
  the root shell prints, and which writes fail. Against it, the model covers:
  - path resolution;
  - the permission string and the listing order;
  - the `ls -l` parser under root;
  - content operations and the depth-bounded tree.
- `processes.dfy`: `ProcessManager`. The `ps` output is an oracle `Host`. The model covers
  the two row parsers, the row-reading loop, and the kill with its fallback.
- `router.dfy`: `ActionHandler`, in two parts:
  - `Dispatch` is a pure function from one inbound frame and its environment to the
    frames sent, the log lines appended and the shell command forwarded;
  - the class method `HandleMessage` is proved to perform exactly that reaction.
- `service.dfy`: `AgentService`. It builds the socket URL from the stored configuration,
  starts and stops the agent, and reacts to the connection flag. On connect it starts the
  heartbeat and monitor jobs; on a drop it stops them, waits 5 seconds and dials once more.
  If that one retry fails, the agent stays disconnected: the flag drops to false again,
  which it already was, so the collector never reacts again. A URL that OkHttp cannot
  parse makes the dial throw, which ends the process.

## Model

Source paths are relative to the repository root.

| member | source | states |
|---|---|---|
| Repository.LastN | app/src/main/java/com/zxq/bmagent/android/data/AgentRepository.kt:54-63 | the newest `n` lines: as many as there are, up to `n` |
| Repository.AppendedBounded | app/src/main/java/com/zxq/bmagent/android/data/AgentRepository.kt:54-63 | appending keeps the buffer within MAX_LOGS (1000) and makes `msg` the last line; below the cap nothing is dropped, at the cap exactly the oldest line is dropped |
| Repository.AppendedAllKeepsNewest | app/src/main/java/com/zxq/bmagent/android/data/AgentRepository.kt:33-63 | after any run of appends the buffer holds exactly the newest 1000 lines of everything logged, in order |
| Repository.AppendedAllSnoc | app/src/main/java/com/zxq/bmagent/android/data/AgentRepository.kt:54-63 | appending a run and then one more line is the same as appending the longer run |
| Repository.LastNTwice | app/src/main/java/com/zxq/bmagent/android/data/AgentRepository.kt:54-63 | trimming to 1000 lines early loses nothing that a later trim would have kept |
| Repository.AgentRepository.constructor | app/src/main/java/com/zxq/bmagent/android/data/AgentRepository.kt:11-33 | starts from the stored preferences, with an empty log, not running and not connected |
| Repository.AgentRepository.Put | app/src/main/java/com/zxq/bmagent/android/data/AgentRepository.kt:17-27 | a setter stores one key, reads back as the value, and leaves every other key, the log and the flags alone |
| Repository.AgentRepository.SetRunning | app/src/main/java/com/zxq/bmagent/android/data/AgentRepository.kt:42-44 | sets the running flag and nothing else |
| Repository.AgentRepository.SetConnected | app/src/main/java/com/zxq/bmagent/android/data/AgentRepository.kt:46-48 | sets the connected flag and nothing else |
| Repository.AgentRepository.AppendLog | app/src/main/java/com/zxq/bmagent/android/data/AgentRepository.kt:54-63 | the buffer becomes the bounded append of `msg`, and the published log list equals the buffer |
| Transport.AcceptedAppend | app/src/main/java/com/zxq/bmagent/android/network/WebSocketClient.kt:85-87 | sending two runs of frames one after the other is the same as sending their concatenation |
| Transport.WebSocketClient.constructor | app/src/main/java/com/zxq/bmagent/android/network/WebSocketClient.kt:20-30 | no socket, no listener, not connected, nothing sent |
| Transport.WebSocketClient.SetListener | app/src/main/java/com/zxq/bmagent/android/network/WebSocketClient.kt:28-30 | the listener becomes the given one |
| Transport.WebSocketClient.Connect | app/src/main/java/com/zxq/bmagent/android/network/WebSocketClient.kt:32-43 | with a socket already open nothing changes; otherwise the call throws, changing nothing, exactly when OkHttp cannot parse the URL, and else a new handle is opened and the URL is dialled once |
| Transport.WebSocketClient.OnOpen | app/src/main/java/com/zxq/bmagent/android/network/WebSocketClient.kt:45-48 | the client becomes connected |
| Transport.WebSocketClient.OnMessage | app/src/main/java/com/zxq/bmagent/android/network/WebSocketClient.kt:50-53 | the frame is delivered to the current listener, if there is one |
| Transport.WebSocketClient.OnClosing | app/src/main/java/com/zxq/bmagent/android/network/WebSocketClient.kt:55-63 | the client becomes disconnected; when the closing handle is the current one, the client keeps it but it takes no more frames |
| Transport.WebSocketClient.OnClosed | app/src/main/java/com/zxq/bmagent/android/network/WebSocketClient.kt:65-69 | disconnected, and the handle is dropped |
| Transport.WebSocketClient.OnFailure | app/src/main/java/com/zxq/bmagent/android/network/WebSocketClient.kt:71-80 | disconnected, and the handle is dropped |
| Transport.WebSocketClient.Send | app/src/main/java/com/zxq/bmagent/android/network/WebSocketClient.kt:85-87 | returns true exactly when a handle exists and no close has been enqueued on it, and exactly then the frame is accepted |
| Transport.WebSocketClient.Disconnect | app/src/main/java/com/zxq/bmagent/android/network/WebSocketClient.kt:89-93 | disconnected, and the handle is dropped |
| Models.TagIdentifiesKind | app/src/main/java/com/zxq/bmagent/android/network/Models.kt:11-200 | two outbound frames carry the same `type` tag exactly when they are the same kind of frame |
| Shell.ReplayAppend | app/src/main/java/com/zxq/bmagent/android/data/ShellManager.kt:103-131 | keystrokes can be processed in two parts: the second part starts from the buffer the first left, and echoes and writes concatenate |
| Shell.ReplayOne | app/src/main/java/com/zxq/bmagent/android/data/ShellManager.kt:103-131 | one keystroke is processed as one `Step` |
| Shell.ReplayNext | app/src/main/java/com/zxq/bmagent/android/data/ShellManager.kt:103-131 | one more keystroke is one more `Step` on the buffer left so far |
| Shell.EnterCommits | app/src/main/java/com/zxq/bmagent/android/data/ShellManager.kt:104-117 | CR or LF writes the buffer plus "\n" to stdin once, empties the buffer and echoes "\r\n" |
| Shell.EraseEditsLast | app/src/main/java/com/zxq/bmagent/android/data/ShellManager.kt:118-125 | DEL or BS removes exactly the last character and echoes "\b \b"; on an empty buffer it does nothing and echoes nothing |
| Shell.OtherAppends | app/src/main/java/com/zxq/bmagent/android/data/ShellManager.kt:126-130 | any other character is appended and echoed as itself |
| Shell.OneWritePerLineEnd | app/src/main/java/com/zxq/bmagent/android/data/ShellManager.kt:103-131 | stdin gets exactly one write per CR or LF typed, and at most one echo frame is sent per keystroke |
| Shell.TypingPlainText | app/src/main/java/com/zxq/bmagent/android/data/ShellManager.kt:126-130 | typing ordinary characters grows the buffer by exactly that text and echoes each character once, in order; nothing reaches stdin |
| Shell.PlainTextTail | app/src/main/java/com/zxq/bmagent/android/data/ShellManager.kt:126-130 | the tail of ordinary text is ordinary text |
| Shell.CommandLine | app/src/main/java/com/zxq/bmagent/android/data/ShellManager.kt:103-131 | typing a command and Enter writes pending buffer + command + "\n" to stdin exactly once, echoes every character and then CR LF, and leaves the buffer empty |
| Shell.CrLfWritesTwice | app/src/main/java/com/zxq/bmagent/android/data/ShellManager.kt:104-117 | CR LF counts as two Enter keys: the line is written, then a lone "\n" |
| Shell.WritesAreLines | app/src/main/java/com/zxq/bmagent/android/data/ShellManager.kt:103-131 | while stdin accepts writes, every stdin write is exactly one line ending in "\n", and the buffer never comes to hold a CR or LF |
| Shell.NoLineEndNoCommits | app/src/main/java/com/zxq/bmagent/android/data/ShellManager.kt:103-131 | keystrokes without a CR or LF write nothing to stdin |
| Shell.TypingUnbroken | app/src/main/java/com/zxq/bmagent/android/data/ShellManager.kt:103-134 | while stdin accepts writes, or when no CR or LF is typed, the loop is exactly the line editor |
| Shell.FailedEnterDropsRest | app/src/main/java/com/zxq/bmagent/android/data/ShellManager.kt:103-134 | into a closed stdin, text then Enter then more keys: the text is edited and echoed as usual, the buffer keeps the "\n" appended before the write, nothing is written, no CR LF is echoed, and the later keys are lost |
| Shell.ClosedStdinWritesNothing | app/src/main/java/com/zxq/bmagent/android/data/ShellManager.kt:112-113 | a closed stdin receives nothing, whatever is typed |
| Shell.EchoFramesKeyed | app/src/main/java/com/zxq/bmagent/android/data/ShellManager.kt:137-140 | echo frames correspond one to one, in order, to the echoes, each keyed by the session |
| Shell.InputComposes | app/src/main/java/com/zxq/bmagent/android/data/ShellManager.kt:83-135 | input is a create followed, when the session then exists, by the keystroke loop on it |
| Shell.CreateExistingIsNoop | app/src/main/java/com/zxq/bmagent/android/data/ShellManager.kt:23-24 | creating an id that is already live changes nothing and sends nothing |
| Shell.CreateOutcome | app/src/main/java/com/zxq/bmagent/android/data/ShellManager.kt:23-81 | a successful create adds exactly that id, with a fresh process, an empty buffer, nothing written and a stdin that accepts writes, and no other session changes; a failed one changes nothing and sends one `shell_close` "Failed to create shell: …" |
| Shell.InputDiscardedWithoutSession | app/src/main/java/com/zxq/bmagent/android/data/ShellManager.kt:83-99 | input for an unknown id whose shell cannot start writes and echoes nothing; the only frame is the failed create's close notice |
| Shell.InputIsolated | app/src/main/java/com/zxq/bmagent/android/data/ShellManager.kt:83-135 | input changes only its own session: the buffer becomes what the keystroke loop leaves, the lines it writes are appended to stdin, no other session changes, and every frame is an echo keyed by that session |
| Shell.CloseOnce | app/src/main/java/com/zxq/bmagent/android/data/ShellManager.kt:146-156 | closing a live session removes it and sends one "Session closed"; closing again (as the reader thread does) sends nothing |
| Shell.CloseThenInputStartsFresh | app/src/main/java/com/zxq/bmagent/android/data/ShellManager.kt:83-90 | input after a close starts a new process and a buffer that owes nothing to the closed session |
| Shell.InputAfterExit | app/src/main/java/com/zxq/bmagent/android/data/ShellManager.kt:101-134 | once a session's shell has exited, typing into it writes nothing to its stdin, and the first Enter leaves its "\n" in the buffer |
| Shell.FeedWritesWholeLines | app/src/main/java/com/zxq/bmagent/android/data/ShellManager.kt:101-134 | typing keeps every session's stdin a sequence of whole lines, and keeps CR and LF out of every open session's buffer |
| Shell.InputWritesWholeLines | app/src/main/java/com/zxq/bmagent/android/data/ShellManager.kt:23-156 | input, close and a shell's exit all keep every session's stdin a sequence of whole lines |
| Shell.SameProcessesKeepWellFormed | app/src/main/java/com/zxq/bmagent/android/data/ShellManager.kt:20-21 | the table invariant depends only on which ids exist and which process each owns |
| Shell.CreateKeepsWellFormed | app/src/main/java/com/zxq/bmagent/android/data/ShellManager.kt:23-81 | a create keeps every session on its own distinct, live process |
| Shell.InputKeepsWellFormed | app/src/main/java/com/zxq/bmagent/android/data/ShellManager.kt:83-135 | input keeps every session on its own distinct, live process |
| Shell.FeedKeepsWellFormed | app/src/main/java/com/zxq/bmagent/android/data/ShellManager.kt:101-131 | typing into a live session keeps every session on its own distinct, live process |
| Shell.CloseKeepsWellFormed | app/src/main/java/com/zxq/bmagent/android/data/ShellManager.kt:146-156 | a close keeps every remaining session on its own distinct, live process |
| Shell.ExitKeepsWellFormed | app/src/main/java/com/zxq/bmagent/android/data/ShellManager.kt:17-21 | a shell's exit keeps every session on its own distinct, live process |
| Shell.EchoFramesAppend | app/src/main/java/com/zxq/bmagent/android/data/ShellManager.kt:103-131 | the echo frames of two runs are those of the concatenated run |
| Shell.EchoesSentInOrder | app/src/main/java/com/zxq/bmagent/android/data/ShellManager.kt:137-140 | sending two runs of echoes one after the other sends those of the concatenated run |
| Shell.ReplayPrefixIsReplay | app/src/main/java/com/zxq/bmagent/android/data/ShellManager.kt:103-131 | the loop's step-by-step state after `i` keystrokes is the editor's result on the first `i` keystrokes |
| Shell.LoopStarts | app/src/main/java/com/zxq/bmagent/android/data/ShellManager.kt:103 | before the first keystroke the loop state is the session's own |
| Shell.TypedStep | app/src/main/java/com/zxq/bmagent/android/data/ShellManager.kt:104-130 | one edit of the buffer, with its stdin write and echo frame, extends the loop invariant by exactly that edit's effect |
| Shell.LoopAdvances | app/src/main/java/com/zxq/bmagent/android/data/ShellManager.kt:103-131 | one pass of the loop advances the invariant by one keystroke |
| Shell.LoopEnds | app/src/main/java/com/zxq/bmagent/android/data/ShellManager.kt:103-131 | after the last pass the buffer, the stdin writes and the frames sent are what the editor gives for the whole input |
| Shell.LoopFails | app/src/main/java/com/zxq/bmagent/android/data/ShellManager.kt:104-134 | when the write for an Enter fails, the state the loop leaves is what `Typing` gives for all of the input |
| Shell.InputInTwoSteps | app/src/main/java/com/zxq/bmagent/android/data/ShellManager.kt:83-135 | a create and then the keystroke loop move the table and send the frames as `InputEffect` says |
| Shell.ShellManager.constructor | app/src/main/java/com/zxq/bmagent/android/data/ShellManager.kt:12-21 | an empty session table |
| Shell.ShellManager.CreateSession | app/src/main/java/com/zxq/bmagent/android/data/ShellManager.kt:23-81 | the table and the frames sent are those of `Create` |
| Shell.ShellManager.SendEcho | app/src/main/java/com/zxq/bmagent/android/data/ShellManager.kt:137-140 | sends one `shell_response` keyed by the session |
| Shell.ShellManager.Key | app/src/main/java/com/zxq/bmagent/android/data/ShellManager.kt:104-130 | one pass of the loop: while stdin accepts writes, the buffer, stdin and echo frame are those of `Step`; on Enter into a closed stdin the buffer keeps the appended "\n", nothing is written or echoed, and the pass reports the failure |
| Shell.ShellManager.Keystrokes | app/src/main/java/com/zxq/bmagent/android/data/ShellManager.kt:103-134 | the loop over `data` leaves the buffer, stdin and frames that `Typing` gives: the line editor, up to and including a write that fails |
| Shell.ShellManager.Feed | app/src/main/java/com/zxq/bmagent/android/data/ShellManager.kt:101-134 | the table and the frames sent are those of `FeedEffect`, which runs the loop against the session's own stdin |
| Shell.ShellManager.Begin | app/src/main/java/com/zxq/bmagent/android/data/ShellManager.kt:83-135 | the table and the frames sent are those of `InputEffect` |
| Shell.ShellManager.Input | app/src/main/java/com/zxq/bmagent/android/data/ShellManager.kt:83-135 | as `Begin`, and the table invariant is kept |
| Shell.ShellManager.Resize | app/src/main/java/com/zxq/bmagent/android/data/ShellManager.kt:142-144 | changes nothing and sends nothing |
| Shell.ShellManager.CloseSession | app/src/main/java/com/zxq/bmagent/android/data/ShellManager.kt:146-156 | the table and the frames sent are those of `Close`, and the invariant is kept |
| Shell.ShellManager.ShellExited | app/src/main/java/com/zxq/bmagent/android/data/ShellManager.kt:17-21 | the session's stdin stops accepting writes, as `Exit` says, and the table invariant is kept |
| Shell.ShellManager.ForwardOutput | app/src/main/java/com/zxq/bmagent/android/data/ShellManager.kt:48-63 | a chunk of shell output is sent as one `shell_response` keyed by the session |
| Shell.ShellManager.ReaderEnded | app/src/main/java/com/zxq/bmagent/android/data/ShellManager.kt:64-70 | the reader's end closes the session by id, exactly as `closeSession` does |
| Files.ResolvePath | app/src/main/java/com/zxq/bmagent/android/data/FileManager.kt:25-42 | with root a path is used as given and "" means "/"; without root the result lies under the storage directory: a path already under it is kept, "" and "/" become the directory itself, an absolute path is appended to it, and a relative one is appended after a "/" |
| Files.ResolveIdempotent | app/src/main/java/com/zxq/bmagent/android/data/FileManager.kt:25-42 | resolving a resolved path changes nothing |
| Files.ResolveUnderStorage | app/src/main/java/com/zxq/bmagent/android/data/FileManager.kt:25-42 | without root a path outside storage is placed under it, joined by exactly one "/", and keeps its text at the end |
| Files.ResolveTop | app/src/main/java/com/zxq/bmagent/android/data/FileManager.kt:25-42 | without root, "/" and "" both name the storage directory |
| Files.ChildPath | app/src/main/java/com/zxq/bmagent/android/data/FileManager.kt:185 | a child path is the parent, one "/" and the name, never two slashes |
| Files.Permissions | app/src/main/java/com/zxq/bmagent/android/data/FileManager.kt:134-143 | ten characters: 'd' exactly for directories; 'r', 'w', 'x' exactly when readable, writable, executable; then a fixed "r-xr-x" |
| Files.ToItem | app/src/main/java/com/zxq/bmagent/android/data/FileManager.kt:56-64 | a listed entry keeps name, kind and time; directories report 4096 bytes, files their length; mode is the permission string; no children |
| Files.Items | app/src/main/java/com/zxq/bmagent/android/data/FileManager.kt:55-64 | one entry per node, in order |
| Files.PermissionsReadBack | app/src/main/java/com/zxq/bmagent/android/data/FileManager.kt:134-143 | the mode starts with "d" exactly when the entry is a directory |
| Files.BeforeTotal | app/src/main/java/com/zxq/bmagent/android/data/FileManager.kt:55 | the listing order is total |
| Files.BeforeTrans | app/src/main/java/com/zxq/bmagent/android/data/FileManager.kt:55 | the listing order is transitive |
| Files.Insert | app/src/main/java/com/zxq/bmagent/android/data/FileManager.kt:55 | insertion adds exactly the one entry |
| Files.SortListing | app/src/main/java/com/zxq/bmagent/android/data/FileManager.kt:55 | sorting is a permutation of the listing |
| Files.InsertSorted | app/src/main/java/com/zxq/bmagent/android/data/FileManager.kt:55 | insertion into a sorted listing keeps it sorted |
| Files.PrependSorted | app/src/main/java/com/zxq/bmagent/android/data/FileManager.kt:55 | an entry that may precede the head of a sorted listing may precede all of it |
| Files.InsertBounded | app/src/main/java/com/zxq/bmagent/android/data/FileManager.kt:55 | the head of a sorted listing still leads after an insertion it may precede |
| Files.ListingOrder | app/src/main/java/com/zxq/bmagent/android/data/FileManager.kt:55 | a sorted listing is a permutation of the input with every directory before every file, each group ordered by lower-cased name, compared by UTF-16 code units |
| Text.SupplementaryBeforeHighBmp | app/src/main/java/com/zxq/bmagent/android/data/FileManager.kt:55 | `compareTo` orders by code unit, not code point: a character outside the Basic Multilingual Plane sorts before any character from U+E000 to U+FFFF |
| Files.DateIndexFrom | app/src/main/java/com/zxq/bmagent/android/data/FileManager.kt:99-108 | the first field from `i` on that looks like a date followed by a time; none when no such field exists |
| Files.FindDateIndex | app/src/main/java/com/zxq/bmagent/android/data/FileManager.kt:99-108 | the search loop finds that first date column, or -1 |
| Files.ParseLsLine | app/src/main/java/com/zxq/bmagent/android/data/FileManager.kt:90-126 | a line gives an entry exactly when it is not the "total" line, has at least six fields and has a date column; the entry's size is the field before the date (0 when not a number), its name the fields after the time joined by " ", its mode the first field, its time the current time, and it is a directory exactly when the mode starts with "d" |
| Files.LsItemsAppend | app/src/main/java/com/zxq/bmagent/android/data/FileManager.kt:90-126 | the parsed entries of two runs of lines are those of the concatenated run, in order |
| Files.LsLineRoundTrip | app/src/main/java/com/zxq/bmagent/android/data/FileManager.kt:90-126 | parsing the line `ls -l` prints for an entry gives back its mode, size, kind and space-separated name |
| Files.ParseEntry | app/src/main/java/com/zxq/bmagent/android/data/FileManager.kt:90-126 | a line whose date column is the sixth field parses to its size and name |
| Files.DateAtFive | app/src/main/java/com/zxq/bmagent/android/data/FileManager.kt:99-108 | with a plain size field followed by a date and a time, the date column is the sixth field |
| Files.NotTotal | app/src/main/java/com/zxq/bmagent/android/data/FileManager.kt:91 | a line not starting with 't' is not skipped as the "total" line |
| Files.DecimalField | app/src/main/java/com/zxq/bmagent/android/data/FileManager.kt:111 | a decimal size is one field that is neither a date nor a time |
| Files.FieldsSplit | app/src/main/java/com/zxq/bmagent/android/data/FileManager.kt:93 | fields joined by single spaces split back into the same fields |
| Files.ParseSplit | app/src/main/java/com/zxq/bmagent/android/data/FileManager.kt:90-126 | a line with a date column and at least six fields parses |
| Files.ListFilesRoot | app/src/main/java/com/zxq/bmagent/android/data/FileManager.kt:76-132 | the loop returns every parsable line's entry, in display order |
| Files.ListFiles | app/src/main/java/com/zxq/bmagent/android/data/FileManager.kt:44-74 | the result is `Listing`: the File API listing when readable, else the root listing, else nothing, and an error when the File API throws |
| Files.ListingShape | app/src/main/java/com/zxq/bmagent/android/data/FileManager.kt:44-74 | a listing is in display order and has no children; from the File API it is a permutation of the directory's entries and every directory reports 4096 bytes; it fails exactly when the File API throws |
| Files.LsItemsFlat | app/src/main/java/com/zxq/bmagent/android/data/FileManager.kt:114-122 | parsed entries carry no children |
| Files.GetFileContent | app/src/main/java/com/zxq/bmagent/android/data/FileManager.kt:145-158 | the read succeeds exactly when the File API can read the file or, with root, `su -c cat` exits with 0; a failure that is not the reader's own exception says "File not found or unreadable" |
| Files.SaveFileContent | app/src/main/java/com/zxq/bmagent/android/data/FileManager.kt:160-163 | the write fails exactly when `writeText` throws; otherwise the file exists and holds exactly that content |
| Files.CreateFile | app/src/main/java/com/zxq/bmagent/android/data/FileManager.kt:165-169 | an existing path fails with "File already exists"; it succeeds exactly when the path is new and `createNewFile` does not throw, and then the file exists and is empty |
| Files.Mkdir | app/src/main/java/com/zxq/bmagent/android/data/FileManager.kt:171-175 | an existing path fails with "Directory already exists"; a refused `mkdirs` fails with "Failed to create directory"; otherwise an empty directory |
| Files.SaveThenGet | app/src/main/java/com/zxq/bmagent/android/data/FileManager.kt:145-163 | a file saved successfully reads back as what was saved |
| Files.CreateThenCreateAgain | app/src/main/java/com/zxq/bmagent/android/data/FileManager.kt:145-169 | a created file reads back empty, and creating it again fails with "File already exists" |
| Files.MkdirThenList | app/src/main/java/com/zxq/bmagent/android/data/FileManager.kt:44-74 | a new directory lists as empty (unless the File API throws on it), and a second `mkdir` fails with "Directory already exists" |
| Files.ExpandShape | app/src/main/java/com/zxq/bmagent/android/data/FileManager.kt:183-191 | the expanded tree keeps the listing entry for entry; only directories get children, listed from the child path with one level less |
| Files.TreeShape | app/src/main/java/com/zxq/bmagent/android/data/FileManager.kt:177-192 | depth 1 or less is the plain listing; a failing listing fails the tree; a deeper tree keeps the listing's entries at its top level |
| Files.TreeHeight | app/src/main/java/com/zxq/bmagent/android/data/FileManager.kt:177-192 | a tree requested with depth `d` is never nested deeper than `d` levels |
| Files.ExpandHeight | app/src/main/java/com/zxq/bmagent/android/data/FileManager.kt:183-191 | expanding flat entries at depth `d` nests them no deeper than `d` levels |
| Processes.MapStatus | app/src/main/java/com/zxq/bmagent/android/data/ProcessManager.kt:136-145 | R, S, D, Z and T, in either case, map to Running, Sleeping, Disk Sleep, Zombie and Stopped, and so does the long s "ſ", whose upper case is S, to Sleeping; any other state is kept as it is |
| Processes.ParsePsLine | app/src/main/java/com/zxq/bmagent/android/data/ProcessManager.kt:68-95 | a root row parses exactly when it has at least seven fields and an Int pid; ppid and RSS default to 0 when not numbers; memory is RSS × 1024 in 64-bit arithmetic; the name (and command line) is every field from the seventh on, joined by spaces; the status is mapped |
| Processes.ParsePsLineGeneric | app/src/main/java/com/zxq/bmagent/android/data/ProcessManager.kt:97-134 | a fallback row parses exactly when it has at least eight fields and an Int pid; the name is the last field; memory comes from the fifth field only when there are nine or more; the status is always "Running" |
| Processes.PsRowRoundTrip | app/src/main/java/com/zxq/bmagent/android/data/ProcessManager.kt:68-95 | parsing the row `ps` prints for a process gives back its pid, ppid, user, memory, status and name |
| Processes.DecimalField | app/src/main/java/com/zxq/bmagent/android/data/ProcessManager.kt:75-78 | a number printed in decimal is one field |
| Processes.RowSplits | app/src/main/java/com/zxq/bmagent/android/data/ProcessManager.kt:70 | fields joined by single spaces split back into the same fields |
| Processes.ParseRow | app/src/main/java/com/zxq/bmagent/android/data/ProcessManager.kt:68-95 | a row with seven fields and decimal numbers where they belong parses |
| Processes.ParsedRowsAppend | app/src/main/java/com/zxq/bmagent/android/data/ProcessManager.kt:32-34 | the processes of two runs of rows are those of the concatenated run, in order |
| Processes.ParsedRowsFrom | app/src/main/java/com/zxq/bmagent/android/data/ProcessManager.kt:32-34 | no more processes than rows, and each one is the parse of some row |
| Processes.HeaderIgnored | app/src/main/java/com/zxq/bmagent/android/data/ProcessManager.kt:29 | the header line never affects the list |
| Processes.ReadRows | app/src/main/java/com/zxq/bmagent/android/data/ProcessManager.kt:29-34 | the loop returns every parsable row after the header, in order |
| Processes.ListProcesses | app/src/main/java/com/zxq/bmagent/android/data/ProcessManager.kt:9-66 | the root listing when root is available, else the fallback, as `ProcessList` gives |
| Processes.ProcessListRows | app/src/main/java/com/zxq/bmagent/android/data/ProcessManager.kt:9-66 | under root every listed process is the parse of some `ps` row after the header; every process of the fallback listing says "Running" |
| Processes.KillProcess | app/src/main/java/com/zxq/bmagent/android/data/ProcessManager.kt:147-171 | with root the kill succeeds exactly when `su -c kill -9` exits with 0; otherwise it succeeds unless `Process.killProcess` throws, and then exactly when a plain `kill -9` exits with 0 |
| Router.AtMostOneEffect | app/src/main/java/com/zxq/bmagent/android/service/ActionHandler.kt:34-55 | one inbound frame causes at most one effect in total: one frame sent, one log line or one shell command |
| Router.ResponsesEchoRequestId | app/src/main/java/com/zxq/bmagent/android/service/ActionHandler.kt:57-234 | every response carries the inbound frame's own `request_id` |
| Router.ContentAnswerEchoes | app/src/main/java/com/zxq/bmagent/android/service/ActionHandler.kt:91-153 | `file_content` answers under the request's id, for the tree as for content |
| Router.HeartbeatAntiEcho | app/src/main/java/com/zxq/bmagent/android/service/ActionHandler.kt:57-71 | a heartbeat that its class reads is answered exactly when it is not itself a reply, the answer is marked as a reply, and nothing is logged |
| Router.TypedParseFailureLogged | app/src/main/java/com/zxq/bmagent/android/service/ActionHandler.kt:57-234 | a known frame that its handler's class cannot read sends and forwards nothing and changes no file; file requests leave no log line, every other kind logs exactly one, and a heartbeat logs "Error handling heartbeat: <message>" |
| Router.UnknownTypeOnlyLogged | app/src/main/java/com/zxq/bmagent/android/service/ActionHandler.kt:50-53 | an unknown type, readable or not by a handler class, is only logged as "Unknown message type: <type>", and an unreadable frame as its parse error; nothing is sent or forwarded |
| Router.FileContentAnswered | app/src/main/java/com/zxq/bmagent/android/service/ActionHandler.kt:91-153 | a non-tree `file_content` request with a path and an id gets exactly one `file_content_response` with that id and path; success says "Success", only `get` carries content, and an unknown action succeeds and changes nothing |
| Router.WritesAnswerOutcome | app/src/main/java/com/zxq/bmagent/android/service/ActionHandler.kt:104-134 | `save`, `mkdir` and `create` answer false exactly when their file operations fail, and then carry the operation's error message; a failed `save` or `mkdir` leaves the device as it was; `create` also fails when writing its non-empty content fails |
| Router.GetAnswersContent | app/src/main/java/com/zxq/bmagent/android/service/ActionHandler.kt:102-111 | `get` succeeds exactly when the file can be read, and then carries its text; otherwise it carries the error message |
| Router.CreateWritesNonEmptyContent | app/src/main/java/com/zxq/bmagent/android/service/ActionHandler.kt:102-111 | `create` writes the content only when it is present and non-empty; a failing write leaves the new empty file in place |
| Router.TreeActionEarlyReturn | app/src/main/java/com/zxq/bmagent/android/service/ActionHandler.kt:112-128 | `tree` inside `file_content` sends exactly one frame: the tree as a `file_tree_response` when it can be listed, else a failed `file_content_response` with the error |
| Router.TreeDepthParsed | app/src/main/java/com/zxq/bmagent/android/service/ActionHandler.kt:113 | the tree depth is the number `content` spells, and 1 when `content` is absent or not a number |
| Router.ProcessReplies | app/src/main/java/com/zxq/bmagent/android/service/ActionHandler.kt:155-197 | a kill answers once, for the pid asked, and reports "Process killed" exactly when `killProcess` succeeded; a process list answers once with the processes listed and their number |
| Router.CollaboratorFailureUnanswered | app/src/main/java/com/zxq/bmagent/android/service/ActionHandler.kt:73-89 | a listing or tree that throws sends nothing and logs nothing |
| Router.ShellForwarding | app/src/main/java/com/zxq/bmagent/android/service/ActionHandler.kt:199-211 | `shell_command` forwards exactly `create`, `input` (with its data, "" when absent) and `close`; anything else is dropped |
| Router.ShellDispatch | app/src/main/java/com/zxq/bmagent/android/service/ActionHandler.kt:43-49 | `shell_command` and `terminal_create` go to the shell handler, which sends nothing itself and writes nothing; for `terminal_create` only the type is renamed (see "## Left out") |
| Router.ActionHandler.constructor | app/src/main/java/com/zxq/bmagent/android/service/ActionHandler.kt:28-32 | the handler shares the repository and the shell manager's socket client |
| Router.ActionHandler.Perform | app/src/main/java/com/zxq/bmagent/android/service/ActionHandler.kt:57-234 | the reaction's frames are sent through the client and its lines appended to the log |
| Router.ActionHandler.HandleFileContent | app/src/main/java/com/zxq/bmagent/android/service/ActionHandler.kt:91-153 | the step-by-step handler sends exactly the frames, and leaves exactly the device, that `FileContentReply` gives |
| Router.ActionHandler.HandleShell | app/src/main/java/com/zxq/bmagent/android/service/ActionHandler.kt:199-211 | the shell table changes as the forwarded command says; only the shell's frames are sent |
| Router.ActionHandler.HandleShellCommand | app/src/main/java/com/zxq/bmagent/android/service/ActionHandler.kt:203-208 | a read command goes to the matching shell-manager operation |
| Router.ActionHandler.FileContentBranch | app/src/main/java/com/zxq/bmagent/android/service/ActionHandler.kt:41 | the `file_content` branch does what `Dispatch` says |
| Router.ActionHandler.ShellBranch | app/src/main/java/com/zxq/bmagent/android/service/ActionHandler.kt:43-49 | the shell branches do what `Dispatch` says |
| Router.ActionHandler.OtherBranch | app/src/main/java/com/zxq/bmagent/android/service/ActionHandler.kt:37-53 | every other branch sends and logs what `Dispatch` says |
| Router.ActionHandler.HandleMessage | app/src/main/java/com/zxq/bmagent/android/service/ActionHandler.kt:34-55 | the handler changes the device and the log, forwards to the shell manager and sends frames exactly as `Dispatch` prescribes |
| Service.BuildUrlSecure | app/src/main/java/com/zxq/bmagent/android/service/AgentService.kt:73-76 | the socket URL starts with "wss://" exactly when the configured URL starts with "https", and with "ws://" otherwise |
| Service.HostOfUndecorated | app/src/main/java/com/zxq/bmagent/android/service/AgentService.kt:73-76 | without a scheme prefix, the host is the URL less at most one trailing "/" |
| Service.HostOfBare | app/src/main/java/com/zxq/bmagent/android/service/AgentService.kt:73-76 | a bare host, with or without one trailing "/", is its own host part |
| Service.HostStripsDecoration | app/src/main/java/com/zxq/bmagent/android/service/AgentService.kt:73-76 | "http://h", "https://h" and "h", each with or without a trailing "/", all give host `h` |
| Service.HostDropsOneSlash | app/src/main/java/com/zxq/bmagent/android/service/AgentService.kt:73-76 | only one trailing "/" is removed |
| Service.ReactionLogs | app/src/main/java/com/zxq/bmagent/android/service/AgentService.kt:85-106 | a reaction logs "Connected to server." or "Disconnected from server.", then "Starting background tasks..." exactly when the jobs were not alive, or "Waiting 5s to reconnect..." exactly when still running |
| Service.AgentService.constructor | app/src/main/java/com/zxq/bmagent/android/service/AgentService.kt:24-40 | no jobs and no collector |
| Service.AgentService.StartBackgroundTasks | app/src/main/java/com/zxq/bmagent/android/service/AgentService.kt:122-179 | with the heartbeat job alive nothing changes; otherwise one log line and two new jobs; never more than two jobs live |
| Service.AgentService.StopBackgroundTasks | app/src/main/java/com/zxq/bmagent/android/service/AgentService.kt:181-186 | both jobs are cancelled and forgotten |
| Service.AgentService.React | app/src/main/java/com/zxq/bmagent/android/service/AgentService.kt:85-106 | the connected flag is stored; connected keeps or starts the jobs; disconnected stops them and waits exactly when still running |
| Service.AgentService.Collect | app/src/main/java/com/zxq/bmagent/android/service/AgentService.kt:85-106 | the collector reacts only to a changed value, and then the jobs run exactly while connected |
| Service.AgentService.DelayElapsed | app/src/main/java/com/zxq/bmagent/android/service/AgentService.kt:96-102 | after the wait the agent reconnects to the same URL only if it is still running; an unparseable URL ends the process |
| Service.AgentService.FailedRetry | app/src/main/java/com/zxq/bmagent/android/service/AgentService.kt:86-104 | a retry whose dial fails leaves the agent running but disconnected, with nothing waiting and a collector that no longer fires |
| Service.AgentService.Launch | app/src/main/java/com/zxq/bmagent/android/service/AgentService.kt:82-111 | the listener is set, the collector reacts to the current value, "Connecting to server..." is logged, and the client dials the built URL unless a socket exists; the process ends exactly when that dial throws on an unparseable URL |
| Service.AgentService.StartNativeAgent | app/src/main/java/com/zxq/bmagent/android/service/AgentService.kt:60-112 | a blank server id or URL logs "Error: Missing Server ID or URL" and leaves the agent not running, dialling nothing; otherwise the agent runs and connects to the URL built from the configuration, and the process ends exactly when OkHttp cannot parse that URL |
| Service.AgentService.StopNativeAgent | app/src/main/java/com/zxq/bmagent/android/service/AgentService.kt:114-120 | the socket is closed and the agent is neither running nor connected. The collector reacts to the drop inside `disconnect()` while the agent still counts as running, so the log gains "Disconnected from server." and "Waiting 5s to reconnect..." before "Agent stopped."; with no collector ready to react, only "Agent stopped." is logged |
| Service.AgentService.Destroy | app/src/main/java/com/zxq/bmagent/android/service/AgentService.kt:52-54 | the collector, its wait and both jobs end with the service |
| Service.AgentService.OnStartCommand | app/src/main/java/com/zxq/bmagent/android/service/AgentService.kt:42-58 | ACTION_START starts the agent, and only it can end the process, through an unparseable URL; ACTION_STOP stops it, with the log lines of `stopNativeAgent`, and ends the service; any other action does nothing |

## Left out

- JSON encoding and decoding (Gson) are not modelled. Inbound frames are modelled as the
  values Gson yields, with a missing primitive read as its default and a missing object as
  null. Which texts Gson rejects is not modelled: a frame whose `type` parses but which
  the handler's own class rejects (a number for `is_reply`, an object for a string) is
  the case `Mistyped`, with Gson's message left abstract. Outbound frames are modelled as
  datatypes, not text.
- Router.Dispatch: for `terminal_create` the source replaces every occurrence of
  "terminal_create" in the frame's text by "shell_command" before the shell handler parses
  it, so a session id or input data containing that word is rewritten too. The model
  renames only the type and passes the payload unchanged.
- `SystemMonitor`, `ServiceLocator`, the UI and `MainActivity` are not part of this model.
  The system-info, heartbeat and monitor frames that the background jobs send are not
  modelled, and neither are the jobs' own log lines ("Sent System Info", "Error sending
  system info: …", "Error sending heartbeat: …", "Error sending monitor data: …",
  AgentService.kt:135, 137, 159 and 174); a job is modelled only as started or cancelled.
- Concurrency: coroutines, the shell reader thread and OkHttp callbacks are modelled as
  atomic method calls, in an order the caller chooses. The race between a reader thread's
  close and a new session under the same id is not modelled.
- The reader thread reads shell output in 4096-byte chunks. The model takes a chunk as given.
- Time: delays, `System.currentTimeMillis()` and date formatting are parameters. An entry's
  modification time arrives already formatted.
- Notifications and `android.util.Log` output are not modelled.
- `ProcessItem.cpu` is a `Double` that is always 0.0. It is left out.
- An exception's message is abstract (`Option<string>`). For example, the text of a
  NullPointerException is not spelled out.
- OkHttp internals are not modelled: the handshake, and close code 1000 (section 7.4.1 of
  RFC 6455) sent on disconnect.
- Service.AgentService.StartNativeAgent: a second ACTION_START in the source launches a
  second collector beside the first. The model keeps one collector, the latest.
- Processes.KillProcess: the effect of a kill on the process table is not modelled. The
  `Host` oracle gives only the exit code, or whether `Process.killProcess` throws.
- Transport.WebSocketClient.Send: OkHttp also refuses a frame when its outgoing queue
  (16 MiB) is full. The model has no queue limit.
- Shell.ShellManager.ShellExited: stands for every way a write to a shell's stdin can fail
  (the shell exited, the pipe broke). Once it has failed, a session's stdin is modelled as
  failing for good.
- Shell.EraseEditsLast: a Dafny `char` is a whole Unicode scalar value, so an erase removes
  a whole character. The source's loop runs over UTF-16 code units, and `deleteCharAt`
  removes only the low surrogate of a character outside the Basic Multilingual Plane.
- Shell.OtherAppends: a character outside the Basic Multilingual Plane is one keystroke,
  echoed as one frame. In the source it is two UTF-16 units, echoed as two frames that
  each hold a lone surrogate.
- Shell.ShellManager.Key: has both of the differences above. The UTF-8 bytes that
  `toByteArray()` writes for a line are not modelled either; a line is written as text.
- Files.ListingOrder: names are lower-cased for ASCII letters only. Kotlin's `lowercase()`
  maps every Unicode letter, so, for example, "Éb" and "éa" compare differently in the
  source. The comparison of the lower-cased names is exact: UTF-16 code units, as
  `String.compareTo`.
- Service.AgentService.StartNativeAgent: whether OkHttp can parse the built URL is an oracle
  (`parses`); its URL grammar is not modelled. When the dial throws, the model stops at the
  throw and says so (`crashed`); what the platform does after the process ends is not modelled.
- Text.ParseInteger: accepts ASCII digits only. Kotlin's `toIntOrNull` and `toLongOrNull`
  also accept the decimal digits of other scripts, such as "٣" for 3.
- Files: the `Fs` oracle is not required to be self-consistent (for example, listings
  against `existing`). Only the writes the agent makes update it.

Where the code does something other than what its comments and the agent's message
protocol suggest, the model follows the code:

- A failing `file_list` or `tree` request sends no response, and logs only through
  `android.util.Log`.
- A request without `request_id` gets no response: the response constructor rejects the
  null.
- A `tree` frame whose payload lacks `content` gets no response: `toIntOrNull` is called on
  a null. A `content` that is present but not a number gives depth 1.
- `resize` from `shell_command` is never forwarded to the shell manager.
- A server URL that passes the blank check but that OkHttp cannot parse, such as one with
  port 99999 or a space in the host, ends the process: `Request.Builder().url(url)` throws
  on the main thread, right after "Connecting to server..." is logged, and nothing catches it.
- Reconnection is a single retry per observed drop, not a standing loop. When the retry's
  dial fails, `onFailure` sets the connected flag to false, the value it already holds;
  the state flow does not emit it, so the collector never runs again and the agent stays
  disconnected while still marked as running.
