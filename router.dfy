/** The message router (service/ActionHandler.kt): reads the `type` of each inbound frame,
    hands the payload to the file, process or shell component, and sends back at most one
    response carrying the request's `request_id`.

    Gson is not modelled: an inbound frame is the `Inbound` record it leaves. Kotlin's null
    checks are: a `request_id`, `path` or `session` that Gson left null makes the response's
    constructor (or the collaborator call) throw a NullPointerException, which each handler
    catches. Handlers for files catch into the platform log only, so such a frame leaves no
    trace in the model; handlers for processes and shells append "Error ...: <message>" to the
    agent's log. The clock and the app's version name are inputs. */
module Router {
  import opened Wrappers
  import opened Models
  import Text
  import Files
  import Processes
  import Shell
  import Transport
  import Repository

  /** What the handlers read besides the frame: the device, the clock (`currentTimeMillis()
      / 1000`), the app's version name, and the message the runtime gives a
      NullPointerException. */
  datatype Env = Env(fs: Files.Fs, host: Processes.Host, now: int, version: string, nullMessage: Option<string>)

  /** A `shell_command` handed on to the shell manager. */
  datatype ShellRequest =
    | CreateShell(session: string)
    | InputShell(session: string, data: string)
    | CloseShell(session: string)

  /** What one inbound frame makes the router do: frames sent, lines appended to the agent's
      log, a command for the shell manager, and the device afterwards. */
  datatype Reaction = Reaction(frames: seq<Outbound>, logs: seq<string>, shell: Option<ShellRequest>, fs: Files.Fs)

  const Success: string := "Success"
  const Killed: string := "Process killed"
  const NotKilled: string := "Failed to kill process"

  /** Nothing sent, logged or forwarded. */
  function Silent(fs: Files.Fs): Reaction {
    Reaction([], [], None, fs)
  }

  function Answer(frame: Outbound, fs: Files.Fs): Reaction {
    Reaction([frame], [], None, fs)
  }

  function Logged(line: string, fs: Files.Fs): Reaction {
    Reaction([], [line], None, fs)
  }

  // ---- the handlers as functions ----

  /** `handleHeartbeat`: only a heartbeat that is not itself a reply gets one. */
  function HeartbeatReply(isReply: bool, env: Env): Reaction {
    if isReply then Silent(env.fs)
    else Answer(Heartbeat(env.now, env.version, "online", true), env.fs)
  }

  /** `handleFileList`. */
  function FileListReply(requestId: Option<string>, payload: Option<Payload>, env: Env): Reaction {
    if payload.None? || payload.value.path.None? then Silent(env.fs)
    else
      var path := payload.value.path.value;
      match Files.Listing(env.fs, path)
      case Err(_) => Silent(env.fs)
      case Ok(files) =>
        if requestId.None? then Silent(env.fs)
        else Answer(FileListResponse(requestId.value, path, files), env.fs)
  }

  /** The depth of a tree request: its `content` as an Int, 1 when absent or not a number. */
  function TreeDepth(content: Option<string>): int {
    match content
    case None => 1
    case Some(s) => Text.ParseInt(s).GetOr(1)
  }

  /** What the `when (action)` block of `handleFileContent` leaves: either the tree response
      was sent and the handler returned, or the device and the fields of the response. */
  datatype Outcome =
    | TreeSent(tree: seq<FileItem>)
    | Finished(fs: Files.Fs, content: Option<string>, success: bool, message: Option<string>)

  function Succeeded(fs: Files.Fs): Outcome {
    Finished(fs, None, true, Some(Success))
  }

  /** The `when (action)` block on a non-null path, with its exceptions caught. */
  function ContentAction(requestId: Option<string>, path: string, action: Option<string>,
                         content: Option<string>, env: Env): Outcome
  {
    var fs := env.fs;
    if action == Some("get") then
      match Files.GetFileContent(fs, path)
      case Ok(text) => Finished(fs, Some(text), true, Some(Success))
      case Err(m) => Finished(fs, None, false, m)
    else if action == Some("save") then
      match Files.SaveFileContent(fs, path, content.GetOr(""))
      case Ok(fs') => Succeeded(fs')
      case Err(m) => Finished(fs, None, false, m)
    else if action == Some("create") then
      match Files.CreateFile(fs, path)
      case Err(m) => Finished(fs, None, false, m)
      case Ok(created) =>
        if content.None? || content.value == "" then Succeeded(created)
        else match Files.SaveFileContent(created, path, content.value)
          case Ok(fs') => Succeeded(fs')
          case Err(m) => Finished(created, None, false, m)
    else if action == Some("mkdir") then
      match Files.Mkdir(fs, path)
      case Ok(fs') => Succeeded(fs')
      case Err(m) => Finished(fs, None, false, m)
    else if action == Some("tree") then
      match Files.DirectoryTree(fs, path, TreeDepth(content))
      case Err(m) => Finished(fs, None, false, m)
      case Ok(tree) =>
        // a null request id makes the tree response's constructor throw inside the block
        if requestId.None? then Finished(fs, None, false, env.nullMessage) else TreeSent(tree)
    else Succeeded(fs)
  }

  /** `handleFileContent`. */
  function FileContentReply(requestId: Option<string>, payload: Option<Payload>, env: Env): Reaction {
    if payload.None? || payload.value.path.None? then Silent(env.fs)
    else
      var path := payload.value.path.value;
      match ContentAction(requestId, path, payload.value.action, payload.value.content, env)
      case TreeSent(tree) => Answer(FileTreeResponse(requestId.value, path, tree), env.fs)
      case Finished(fs, content, success, message) =>
        if requestId.None? then Silent(fs)
        else Answer(FileContentResponse(requestId.value, FileContentData(path, content, Some(success), message)), fs)
  }

  /** `handleProcessList`. */
  function ProcessListReply(requestId: Option<string>, env: Env): Reaction {
    var processes := Processes.ProcessList(env.fs.root, env.host);
    if requestId.None? then Logged("Error listing processes: " + Shown(env.nullMessage), env.fs)
    else Answer(ProcessListResponse(requestId.value, env.now, |processes|, processes), env.fs)
  }

  /** `handleProcessKill`. */
  function ProcessKillReply(requestId: Option<string>, payload: Option<Payload>, env: Env): Reaction {
    if payload.None? || requestId.None? then Logged("Error killing process: " + Shown(env.nullMessage), env.fs)
    else
      var pid := payload.value.pid;
      var killed := Processes.KillProcess(env.fs.root, env.host, pid);
      Answer(ProcessKillResponse(requestId.value,
               ProcessKillData(pid, killed, if killed then Killed else NotKilled, env.now)), env.fs)
  }

  /** `handleShellCommand`: `create`, `input` and `close` go to the shell manager; every other
      shell type, `resize` included, is ignored. */
  function ShellCommandReply(payload: Option<Payload>, env: Env): Reaction {
    var failed := Logged("Error handling shell command: " + Shown(env.nullMessage), env.fs);
    if payload.None? then failed
    else
      var p := payload.value;
      if p.kind != Some("create") && p.kind != Some("input") && p.kind != Some("close") then Silent(env.fs)
      else if p.session.None? then failed
      else
        var request :=
          if p.kind == Some("create") then CreateShell(p.session.value)
          else if p.kind == Some("input") then InputShell(p.session.value, p.data.GetOr(""))
          else CloseShell(p.session.value);
        Reaction([], [], Some(request), env.fs)
  }

  /** `handleFileTree`: the depth is required here, a missing one making `toIntOrNull` throw. */
  function FileTreeReply(requestId: Option<string>, payload: Option<Payload>, env: Env): Reaction {
    if payload.None? || payload.value.path.None? || payload.value.content.None? then Silent(env.fs)
    else
      var path := payload.value.path.value;
      match Files.DirectoryTree(env.fs, path, TreeDepth(payload.value.content))
      case Err(_) => Silent(env.fs)
      case Ok(tree) =>
        if requestId.None? then Silent(env.fs)
        else Answer(FileTreeResponse(requestId.value, path, tree), env.fs)
  }

  /** A frame whose `type` was read but which the handler's own class could not read: the
      exception is thrown inside the handler's `try`, so each handler's `catch` decides what
      is left. The file handlers log to the platform only; the others append their line.
      An unknown type is not parsed a second time. */
  function TypedParseFailed(kind: Option<string>, error: Option<string>, env: Env): Reaction {
    if kind == Some("heartbeat") then Logged("Error handling heartbeat: " + Shown(error), env.fs)
    else if kind == Some("process_list") then Logged("Error listing processes: " + Shown(error), env.fs)
    else if kind == Some("process_kill") then Logged("Error killing process: " + Shown(error), env.fs)
    else if kind == Some("shell_command") || kind == Some("terminal_create") then
      Logged("Error handling shell command: " + Shown(error), env.fs)
    else if kind == Some("file_list") || kind == Some("file_content") || kind == Some("tree") then Silent(env.fs)
    else Logged("Unknown message type: " + Shown(kind), env.fs)
  }

  /** `handleMessage`: dispatch on `type`. A `terminal_create` frame goes to the shell
      handler as a `shell_command`; the source rewrites the frame's whole text for that, and
      the model renames only the type. */
  function Dispatch(msg: Inbound, env: Env): Reaction {
    match msg
    case Unparseable(e) => Logged("Error parsing message: " + Shown(e), env.fs)
    case Mistyped(kind, e) => TypedParseFailed(kind, e, env)
    case Envelope(kind, requestId, isReply, payload) =>
      if kind == Some("heartbeat") then HeartbeatReply(isReply, env)
      else if kind == Some("file_list") then FileListReply(requestId, payload, env)
      else if kind == Some("file_content") then FileContentReply(requestId, payload, env)
      else if kind == Some("process_list") then ProcessListReply(requestId, env)
      else if kind == Some("process_kill") then ProcessKillReply(requestId, payload, env)
      else if kind == Some("shell_command") || kind == Some("terminal_create") then ShellCommandReply(payload, env)
      else if kind == Some("tree") then FileTreeReply(requestId, payload, env)
      else Logged("Unknown message type: " + Shown(kind), env.fs)
  }

  /** The types the router has a handler for. */
  predicate Known(kind: Option<string>) {
    kind.Some? && kind.value in {"heartbeat", "file_list", "file_content", "process_list", "process_kill",
                                 "shell_command", "terminal_create", "tree"}
  }

  /** What the shell manager does with a forwarded command. */
  function Forwarded(s: Shell.Shells, request: Option<ShellRequest>, spawn: Shell.Spawn): Shell.Effect {
    match request
    case None => Shell.Effect(s, [])
    case Some(CreateShell(id)) => Shell.Create(s, id, spawn)
    case Some(InputShell(id, data)) => Shell.InputEffect(s, id, data, spawn)
    case Some(CloseShell(id)) => Shell.Close(s, id)
  }

  // ---- properties ----

  /** A frame answers at most once: one frame, one log line or one shell command, never two
      of them. */
  lemma AtMostOneEffect(msg: Inbound, env: Env)
    ensures var r := Dispatch(msg, env);
            |r.frames| + |r.logs| + |r.shell.ToSeq()| <= 1
  {
  }

  /** Every response names the request it answers: the frame's `request_id` is the inbound
      one; only a heartbeat reply carries none. */
  lemma ResponsesEchoRequestId(msg: Inbound, env: Env)
    ensures forall f :: f in Dispatch(msg, env).frames ==>
              f.Heartbeat? || (msg.Envelope? && msg.requestId == f.Correlation())
  {
    match msg
    case Unparseable(_) =>
    case Mistyped(_, _) =>
    case Envelope(kind, requestId, _, payload) =>
      if kind == Some("file_content") {
        ContentAnswerEchoes(requestId, payload, env);
      } else if kind == Some("file_list") || kind == Some("tree") || kind == Some("process_list")
             || kind == Some("process_kill") {
        assert forall f :: f in Dispatch(msg, env).frames ==> requestId == f.Correlation();
      }
  }

  /** The `file_content` handler answers under the request's own id, for the tree as for
      every other action. */
  lemma ContentAnswerEchoes(requestId: Option<string>, payload: Option<Payload>, env: Env)
    ensures forall f :: f in FileContentReply(requestId, payload, env).frames ==> requestId == f.Correlation()
  {
    if payload.Some? && payload.value.path.Some? {
      var p := payload.value;
      var o := ContentAction(requestId, p.path.value, p.action, p.content, env);
      assert o.TreeSent? ==> requestId.Some?;
    }
  }

  /** A heartbeat its class reads is answered exactly when it is not itself a reply, with a
      reply marked `is_reply` that carries the current time; a reply to a reply is never
      sent. */
  lemma HeartbeatAntiEcho(requestId: Option<string>, isReply: bool, payload: Option<Payload>, env: Env)
    ensures var r := Dispatch(Envelope(Some("heartbeat"), requestId, isReply, payload), env);
            && (|r.frames| == 1 <==> !isReply)
            && r.frames <= [Heartbeat(env.now, env.version, "online", true)]
            && r.logs == [] && r.shell.None?
  {
  }

  /** A frame of a known type that its handler's class cannot read sends and forwards
      nothing and changes no file: a file request leaves no trace, any other logs its
      handler's error line with Gson's message, a heartbeat "Error handling heartbeat: ". */
  lemma TypedParseFailureLogged(kind: Option<string>, error: Option<string>, env: Env)
    requires Known(kind)
    ensures var r := Dispatch(Mistyped(kind, error), env);
            && r.frames == [] && r.shell.None? && r.fs == env.fs
            && (r.logs == [] <==> kind in {Some("file_list"), Some("file_content"), Some("tree")})
            && |r.logs| <= 1
            && (kind == Some("heartbeat") ==> r.logs == ["Error handling heartbeat: " + Shown(error)])
  {
  }

  /** An unknown type is only logged, as "Unknown message type: <type>"; an unreadable frame
      only logs the parse error. */
  lemma UnknownTypeOnlyLogged(msg: Inbound, env: Env)
    requires msg.Unparseable? || !Known(msg.kind)
    ensures var r := Dispatch(msg, env);
            && r.frames == [] && r.shell.None? && r.fs == env.fs
            && (!msg.Unparseable? ==> r.logs == ["Unknown message type: " + Shown(msg.kind)])
            && (msg.Unparseable? ==> r.logs == ["Error parsing message: " + Shown(msg.error)])
  {
  }

  /** A `file_content` request other than `tree`, with a path and a request id, gets exactly
      one `file_content_response` with the same id and path; it says "Success" when it
      succeeds, only `get` fills in `content`, and an unknown action succeeds and does nothing. */
  lemma FileContentAnswered(requestId: string, payload: Payload, env: Env)
    requires payload.path.Some? && payload.action != Some("tree")
    ensures var r := Dispatch(Envelope(Some("file_content"), Some(requestId), false, Some(payload)), env);
            && |r.frames| == 1 && r.logs == [] && r.shell.None?
            && r.frames[0].FileContentResponse?
            && r.frames[0].requestId == requestId
            && r.frames[0].contentData.path == payload.path.value
            && r.frames[0].contentData.success.Some?
            && (r.frames[0].contentData.success == Some(true) ==> r.frames[0].contentData.message == Some("Success"))
            && (r.frames[0].contentData.content.Some? ==> payload.action == Some("get"))
            && (payload.action !in {Some("get"), Some("save"), Some("create"), Some("mkdir")} ==>
                  r.frames[0].contentData == FileContentData(payload.path.value, None, Some(true), Some("Success"))
                  && r.fs == env.fs)
  {
  }

  /** `get` succeeds exactly when the file can be read, and then carries its text; otherwise
      it carries the reader's error message. */
  lemma GetAnswersContent(requestId: string, payload: Payload, env: Env)
    requires payload.path.Some? && payload.action == Some("get")
    ensures var r := Dispatch(Envelope(Some("file_content"), Some(requestId), false, Some(payload)), env);
            var read := Files.GetFileContent(env.fs, payload.path.value);
            && r.frames[0].contentData.success == Some(read.Ok?)
            && r.frames[0].contentData.content == (if read.Ok? then Some(read.value) else None)
            && (read.Err? ==> r.frames[0].contentData.message == read.message)
  {
  }

  /** `create` writes the content only when it is present and non-empty; a failing write
      after a successful create leaves the new empty file in place. */
  lemma CreateWritesNonEmptyContent(requestId: Option<string>, payload: Payload, env: Env)
    requires payload.path.Some? && payload.action == Some("create")
    requires Files.CreateFile(env.fs, payload.path.value).Ok?
    ensures var r := Dispatch(Envelope(Some("file_content"), requestId, false, Some(payload)), env);
            var created := Files.CreateFile(env.fs, payload.path.value).value;
            && (payload.content.None? || payload.content == Some("") ==> r.fs == created)
            && (payload.content.Some? && payload.content != Some("") ==>
                  var saved := Files.SaveFileContent(created, payload.path.value, payload.content.value);
                  r.fs == if saved.Ok? then saved.value else created)
  {
  }

  /** `save`, `mkdir` and `create` fail exactly when their file operations fail: the
      response then says false and carries the operation's error message; otherwise it says
      "Success" and the device is the one the operations leave. A failed `save` or `mkdir`
      leaves the device as it was. */
  lemma WritesAnswerOutcome(requestId: string, payload: Payload, env: Env)
    requires payload.path.Some? && payload.action in {Some("save"), Some("mkdir"), Some("create")}
    ensures var r := Dispatch(Envelope(Some("file_content"), Some(requestId), false, Some(payload)), env);
            var save := Files.SaveFileContent(env.fs, payload.path.value, payload.content.GetOr(""));
            payload.action == Some("save") ==>
              && r.frames[0].contentData.success == Some(save.Ok?)
              && (save.Ok? ==> r.fs == save.value && r.frames[0].contentData.message == Some("Success"))
              && (save.Err? ==> r.fs == env.fs && r.frames[0].contentData.message == save.message)
    ensures var r := Dispatch(Envelope(Some("file_content"), Some(requestId), false, Some(payload)), env);
            var made := Files.Mkdir(env.fs, payload.path.value);
            payload.action == Some("mkdir") ==>
              && r.frames[0].contentData.success == Some(made.Ok?)
              && (made.Ok? ==> r.fs == made.value && r.frames[0].contentData.message == Some("Success"))
              && (made.Err? ==> r.fs == env.fs && r.frames[0].contentData.message == made.message)
    ensures var r := Dispatch(Envelope(Some("file_content"), Some(requestId), false, Some(payload)), env);
            var created := Files.CreateFile(env.fs, payload.path.value);
            payload.action == Some("create") && created.Err? ==>
              && r.frames[0].contentData.success == Some(false)
              && r.frames[0].contentData.message == created.message && r.fs == env.fs
    ensures var r := Dispatch(Envelope(Some("file_content"), Some(requestId), false, Some(payload)), env);
            var created := Files.CreateFile(env.fs, payload.path.value);
            payload.action == Some("create") && created.Ok? ==>
              if payload.content.None? || payload.content == Some("") then
                r.frames[0].contentData.success == Some(true)
              else
                var saved := Files.SaveFileContent(created.value, payload.path.value, payload.content.value);
                && r.frames[0].contentData.success == Some(saved.Ok?)
                && (saved.Err? ==> r.frames[0].contentData.message == saved.message)
  {
  }

  /** `file_content` with action `tree` sends the tree as a `file_tree_response` and no
      `file_content_response` when the tree can be listed; otherwise a failed
      `file_content_response` carrying the error. */
  lemma TreeActionEarlyReturn(requestId: string, payload: Payload, env: Env)
    requires payload.path.Some? && payload.action == Some("tree")
    ensures var r := Dispatch(Envelope(Some("file_content"), Some(requestId), false, Some(payload)), env);
            var tree := Files.DirectoryTree(env.fs, payload.path.value, TreeDepth(payload.content));
            && |r.frames| == 1
            && (tree.Ok? ==> r.frames[0] == FileTreeResponse(requestId, payload.path.value, tree.value))
            && (tree.Err? ==> r.frames[0] == FileContentResponse(requestId,
                                FileContentData(payload.path.value, None, Some(false), tree.message)))
  {
  }

  /** The depth of a tree request is the number its `content` spells, and 1 when `content`
      is absent or not a number. */
  lemma TreeDepthParsed(content: Option<string>, n: int)
    requires Text.IntMin <= n <= Text.IntMax
    ensures TreeDepth(None) == 1
    ensures TreeDepth(Some(Text.Decimal(n))) == n
    ensures content.Some? && Text.ParseInt(content.value).None? ==> TreeDepth(content) == 1
  {
    Text.ParseDecimal(n, Text.IntMin, Text.IntMax);
  }

  /** A kill reports "Process killed" exactly when it succeeded; a process list counts the
      processes it carries. */
  lemma ProcessReplies(requestId: string, payload: Payload, env: Env)
    ensures var r := Dispatch(Envelope(Some("process_kill"), Some(requestId), false, Some(payload)), env);
            && |r.frames| == 1 && r.frames[0].ProcessKillResponse? && r.frames[0].requestId == requestId
            && r.frames[0].killData.pid == payload.pid
            && (r.frames[0].killData.message == "Process killed" <==> r.frames[0].killData.success)
            && r.frames[0].killData.success == Processes.KillProcess(env.fs.root, env.host, payload.pid)
    ensures var r := Dispatch(Envelope(Some("process_list"), Some(requestId), false, Some(payload)), env);
            && |r.frames| == 1 && r.frames[0].ProcessListResponse? && r.frames[0].requestId == requestId
            && r.frames[0].count == |r.frames[0].processes|
            && r.frames[0].processes == Processes.ProcessList(env.fs.root, env.host)
  {
  }

  /** A listing or tree that throws sends nothing and logs nothing: the request goes
      unanswered. */
  lemma CollaboratorFailureUnanswered(requestId: Option<string>, payload: Payload, env: Env)
    requires payload.path.Some?
    ensures Files.Listing(env.fs, payload.path.value).Err? ==>
              Dispatch(Envelope(Some("file_list"), requestId, false, Some(payload)), env) == Silent(env.fs)
    ensures Files.DirectoryTree(env.fs, payload.path.value, TreeDepth(payload.content)).Err? ==>
              Dispatch(Envelope(Some("tree"), requestId, false, Some(payload)), env) == Silent(env.fs)
  {
  }

  /** `shell_command` forwards exactly `create`, `input` and `close`, with input data
      defaulting to ""; it never answers directly. */
  lemma ShellForwarding(payload: Payload, env: Env)
    requires payload.session.Some?
    ensures var r := Dispatch(Envelope(Some("shell_command"), None, false, Some(payload)), env);
            && r.frames == [] && r.logs == []
            && (payload.kind == Some("create") ==> r.shell == Some(CreateShell(payload.session.value)))
            && (payload.kind == Some("input") ==> r.shell == Some(InputShell(payload.session.value, payload.data.GetOr(""))))
            && (payload.kind == Some("close") ==> r.shell == Some(CloseShell(payload.session.value)))
            && (payload.kind !in {Some("create"), Some("input"), Some("close")} ==> r.shell.None?)
  {
  }

  /** `shell_command` and `terminal_create` frames reach the shell handler, which never
      answers directly and leaves the device alone. */
  lemma ShellDispatch(msg: Inbound, env: Env)
    requires msg.Envelope? && (msg.kind == Some("shell_command") || msg.kind == Some("terminal_create"))
    ensures Dispatch(msg, env) == ShellCommandReply(msg.payload, env)
    ensures Dispatch(msg, env).frames == [] && Dispatch(msg, env).fs == env.fs
  {
  }

  // ---- the object ----

  /** The `ActionHandler`: the agent's log, the socket client every response goes through,
      and the shell manager shell commands are forwarded to. */
  class ActionHandler {
    const repository: Repository.AgentRepository
    const client: Transport.WebSocketClient
    const shells: Shell.ShellManager

    ghost predicate Valid()
      reads this, repository, shells
    {
      repository.Valid() && shells.Valid() && shells.ws == client
    }

    constructor (repository: Repository.AgentRepository, shells: Shell.ShellManager)
      requires repository.Valid() && shells.Valid()
      ensures Valid()
      ensures this.repository == repository && this.shells == shells && client == shells.ws
    {
      this.repository := repository;
      this.shells := shells;
      this.client := shells.ws;
    }

    /** Sends the frames of `r`, then appends its log lines. */
    method Perform(r: Reaction)
      requires repository.Valid() && |r.frames| <= 1 && |r.logs| <= 1
      modifies client`sent, repository`logBuffer, repository`logs
      ensures repository.Valid()
      ensures client.sent == old(client.sent) + Transport.Accepted(client.Sink(), r.frames)
      ensures repository.logBuffer == Repository.AppendedAll(old(repository.logBuffer), r.logs)
    {
      if |r.frames| == 1 {
        var _ := client.Send(r.frames[0]);
      }
      if |r.logs| == 1 {
        repository.AppendLog(r.logs[0]);
        assert r.logs[1..] == [];
      }
    }

    /** `handleFileContent`, with its local `content`, `message` and `success` and the early
        return after a tree response. */
    method HandleFileContent(requestId: Option<string>, payload: Option<Payload>, env: Env) returns (fs: Files.Fs)
      modifies client`sent
      ensures fs == FileContentReply(requestId, payload, env).fs
      ensures client.sent == old(client.sent) + Transport.Accepted(client.Sink(), FileContentReply(requestId, payload, env).frames)
    {
      fs := env.fs;
      if payload.None? || payload.value.path.None? {
        return;
      }
      var path, action := payload.value.path.value, payload.value.action;
      var content: Option<string> := None;
      var message: Option<string> := Some(Success);
      var success := true;
      if action == Some("get") {
        var read := Files.GetFileContent(fs, path);
        if read.Ok? {
          content := Some(read.value);
        } else {
          success, message := false, read.message;
        }
      } else if action == Some("save") {
        var saved := Files.SaveFileContent(fs, path, payload.value.content.GetOr(""));
        if saved.Ok? {
          fs := saved.value;
        } else {
          success, message := false, saved.message;
        }
      } else if action == Some("create") {
        var created := Files.CreateFile(fs, path);
        if created.Err? {
          success, message := false, created.message;
        } else {
          fs := created.value;
          var text := payload.value.content;
          if text.Some? && text.value != "" {
            var saved := Files.SaveFileContent(fs, path, text.value);
            if saved.Ok? {
              fs := saved.value;
            } else {
              success, message := false, saved.message;
            }
          }
        }
      } else if action == Some("mkdir") {
        var made := Files.Mkdir(fs, path);
        if made.Ok? {
          fs := made.value;
        } else {
          success, message := false, made.message;
        }
      } else if action == Some("tree") {
        var tree := Files.DirectoryTree(fs, path, TreeDepth(payload.value.content));
        if tree.Err? {
          success, message := false, tree.message;
        } else if requestId.None? {
          success, message := false, env.nullMessage;
        } else {
          var _ := client.Send(FileTreeResponse(requestId.value, path, tree.value));
          return;
        }
      }
      if requestId.None? {
        return;
      }
      var _ := client.Send(FileContentResponse(requestId.value, FileContentData(path, content, Some(success), message)));
    }

    /** `handleShellCommand`. */
    method HandleShell(payload: Option<Payload>, env: Env, spawn: Shell.Spawn)
      requires Valid()
      modifies client`sent, repository`logBuffer, repository`logs, shells`sessions, shells`spawned, shells`destroyed
      ensures Valid()
      ensures repository.logBuffer == Repository.AppendedAll(old(repository.logBuffer), ShellCommandReply(payload, env).logs)
      ensures shells.Abstract() == Forwarded(old(shells.Abstract()), ShellCommandReply(payload, env).shell, spawn).next
      ensures client.sent == old(client.sent)
                + Transport.Accepted(client.Sink(), Forwarded(old(shells.Abstract()), ShellCommandReply(payload, env).shell, spawn).frames)
    {
      var r := ShellCommandReply(payload, env);
      if r.shell.Some? {
        HandleShellCommand(r.shell.value, spawn);
      } else {
        Perform(r);
      }
    }

    /** The shell command once the payload is read: the command goes to the shell manager. */
    method HandleShellCommand(request: ShellRequest, spawn: Shell.Spawn)
      requires Valid()
      modifies client`sent, shells`sessions, shells`spawned, shells`destroyed
      ensures Valid()
      ensures shells.Abstract() == Forwarded(old(shells.Abstract()), Some(request), spawn).next
      ensures client.sent == old(client.sent) + Transport.Accepted(client.Sink(), Forwarded(old(shells.Abstract()), Some(request), spawn).frames)
    {
      match request
      case CreateShell(id) =>
        Shell.CreateKeepsWellFormed(shells.Abstract(), id, spawn);
        shells.CreateSession(id, spawn);
      case InputShell(id, data) =>
        shells.Input(id, data, spawn);
      case CloseShell(id) =>
        shells.CloseSession(id);
    }

    /** The `file_content` branch of `handleMessage`. */
    method FileContentBranch(msg: Inbound, env: Env) returns (fs: Files.Fs)
      requires msg.Envelope? && msg.kind == Some("file_content")
      modifies client`sent
      ensures fs == Dispatch(msg, env).fs && Dispatch(msg, env).logs == [] && Dispatch(msg, env).shell.None?
      ensures client.sent == old(client.sent) + Transport.Accepted(client.Sink(), Dispatch(msg, env).frames)
    {
      fs := HandleFileContent(msg.requestId, msg.payload, env);
    }

    /** The `shell_command` (and legacy `terminal_create`) branch of `handleMessage`. */
    method ShellBranch(msg: Inbound, env: Env, spawn: Shell.Spawn)
      requires Valid()
      requires msg.Envelope? && (msg.kind == Some("shell_command") || msg.kind == Some("terminal_create"))
      modifies client`sent, repository`logBuffer, repository`logs, shells`sessions, shells`spawned, shells`destroyed
      ensures Valid()
      ensures Dispatch(msg, env).frames == [] && Dispatch(msg, env).fs == env.fs
      ensures repository.logBuffer == Repository.AppendedAll(old(repository.logBuffer), Dispatch(msg, env).logs)
      ensures shells.Abstract() == Forwarded(old(shells.Abstract()), Dispatch(msg, env).shell, spawn).next
      ensures client.sent == old(client.sent)
                + Transport.Accepted(client.Sink(), Forwarded(old(shells.Abstract()), Dispatch(msg, env).shell, spawn).frames)
    {
      ShellDispatch(msg, env);
      HandleShell(msg.payload, env, spawn);
    }

    /** Every other branch of `handleMessage`: send the reply or log the line. */
    method OtherBranch(msg: Inbound, env: Env)
      requires repository.Valid()
      requires !(msg.Envelope? && msg.kind in {Some("file_content"), Some("shell_command"), Some("terminal_create")})
      modifies client`sent, repository`logBuffer, repository`logs
      ensures repository.Valid()
      ensures Dispatch(msg, env).fs == env.fs && Dispatch(msg, env).shell.None?
      ensures repository.logBuffer == Repository.AppendedAll(old(repository.logBuffer), Dispatch(msg, env).logs)
      ensures client.sent == old(client.sent) + Transport.Accepted(client.Sink(), Dispatch(msg, env).frames)
    {
      AtMostOneEffect(msg, env);
      Perform(Dispatch(msg, env));
    }

    /** `handleMessage`: one inbound frame, with the device, clock and spawn outcome it meets;
        returns the device afterwards. */
    method HandleMessage(msg: Inbound, env: Env, spawn: Shell.Spawn) returns (fs: Files.Fs)
      requires Valid()
      modifies client`sent, repository`logBuffer, repository`logs, shells`sessions, shells`spawned, shells`destroyed
      ensures Valid()
      ensures fs == Dispatch(msg, env).fs
      ensures repository.logBuffer == Repository.AppendedAll(old(repository.logBuffer), Dispatch(msg, env).logs)
      ensures shells.Abstract() == Forwarded(old(shells.Abstract()), Dispatch(msg, env).shell, spawn).next
      ensures client.sent == old(client.sent)
                + Transport.Accepted(client.Sink(), Dispatch(msg, env).frames
                                                    + Forwarded(old(shells.Abstract()), Dispatch(msg, env).shell, spawn).frames)
    {
      ghost var r := Dispatch(msg, env);
      if msg.Envelope? && msg.kind == Some("file_content") {
        fs := FileContentBranch(msg, env);
        assert Repository.AppendedAll(old(repository.logBuffer), r.logs) == old(repository.logBuffer);
      } else if msg.Envelope? && (msg.kind == Some("shell_command") || msg.kind == Some("terminal_create")) {
        ShellBranch(msg, env, spawn);
        fs := env.fs;
        assert r.frames + Forwarded(old(shells.Abstract()), r.shell, spawn).frames
            == Forwarded(old(shells.Abstract()), r.shell, spawn).frames;
      } else {
        OtherBranch(msg, env);
        fs := env.fs;
      }
      assert r.frames + [] == r.frames;
    }
  }
}
