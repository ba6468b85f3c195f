/** The messages the agent exchanges with the control server (the data classes of
    network/Models.kt), as values. JSON text and Gson are not modelled: an inbound message is
    the record Gson leaves behind, where an absent object field is null (`None`) and an absent
    primitive takes the JVM default (`false`, `0`). */
module Models {
  import opened Wrappers

  /** A directory entry; `children` is filled only by the tree listing. */
  datatype FileItem = FileItem(
    name: string,
    size: int,
    isDir: bool,
    modTime: string,
    mode: string,
    children: Option<seq<FileItem>> := None)

  /** A process row; the `cpu` field is always 0.0 in the source and is left out. */
  datatype ProcessItem = ProcessItem(
    pid: int,
    ppid: int,
    name: string,
    username: string,
    memory: int,
    status: string,
    cmdline: string)

  /** The `payload` object of an inbound message, as the union of the fields the handler
      classes read: `path` (file_list, file_content, tree), `action` and `content`
      (file_content, tree), `pid` (process_kill), and the shell payload's `type` (here
      `kind`), `session` and `data`. */
  datatype Payload = Payload(
    path: Option<string>,
    action: Option<string>,
    content: Option<string>,
    pid: int,
    kind: Option<string>,
    session: Option<string>,
    data: Option<string>)

  /** An inbound text frame. Gson could not read it at all; or it read the `type` of the
      frame, but the handler's own message class could not read the frame (a field of the
      wrong JSON type, such as a number for `is_reply` or an object for a string), with the
      message of Gson's exception; or it is the envelope (`type`, `request_id`, the
      heartbeat's `is_reply`) plus its payload, as the handler's class reads it. */
  datatype Inbound =
    | Unparseable(error: Option<string>)
    | Mistyped(kind: Option<string>, error: Option<string>)
    | Envelope(
        kind: Option<string>,
        requestId: Option<string>,
        isReply: bool,
        payload: Option<Payload>)

  /** The `data` of a file_content_response: every field but `path` may be null. */
  datatype FileContentData = FileContentData(
    path: string,
    content: Option<string> := None,
    success: Option<bool> := None,
    message: Option<string> := None)

  /** The `data` of a process_kill_response; `name` is never filled in and keeps its default. */
  datatype ProcessKillData = ProcessKillData(
    pid: int,
    success: bool,
    message: string,
    timestamp: int,
    name: string := "")

  /** Every frame the agent sends. Responses to requests carry a non-null `request_id`;
      heartbeats carry none; shell frames are keyed by `session` instead. */
  datatype Outbound =
    | Heartbeat(timestamp: int, version: string, status: string := "online", isReply: bool := false)
    | FileListResponse(requestId: string, path: string, files: seq<FileItem>)
    | FileContentResponse(requestId: string, contentData: FileContentData)
    | FileTreeResponse(requestId: string, path: string, tree: seq<FileItem>)
    | ShellResponse(session: string, data: string)
    | ShellClose(session: string, message: string)
    | ProcessListResponse(requestId: string, timestamp: int, count: int, processes: seq<ProcessItem>)
    | ProcessKillResponse(requestId: string, killData: ProcessKillData)
  {
    /** The fixed `type` tag each kind is serialised with. */
    function Tag(): string {
      match this
      case Heartbeat(_, _, _, _) => "heartbeat"
      case FileListResponse(_, _, _) => "file_list_response"
      case FileContentResponse(_, _) => "file_content_response"
      case FileTreeResponse(_, _, _) => "file_tree_response"
      case ShellResponse(_, _) => "shell_response"
      case ShellClose(_, _) => "shell_close"
      case ProcessListResponse(_, _, _, _) => "process_list_response"
      case ProcessKillResponse(_, _) => "process_kill_response"
    }

    /** The request this frame answers; shell frames and heartbeats answer none. */
    function Correlation(): (r: Option<string>)
      ensures r.None? <==> Heartbeat? || ShellResponse? || ShellClose?
      ensures r.Some? ==> r.value == requestId
    {
      if Heartbeat? || ShellResponse? || ShellClose? then None else Some(requestId)
    }

    /** The session a shell frame belongs to. */
    function Session(): (r: Option<string>)
      ensures r.Some? <==> ShellResponse? || ShellClose?
    {
      if ShellResponse? || ShellClose? then Some(session) else None
    }
  }

  predicate SameKind(a: Outbound, b: Outbound) {
    || (a.Heartbeat? && b.Heartbeat?)
    || (a.FileListResponse? && b.FileListResponse?)
    || (a.FileContentResponse? && b.FileContentResponse?)
    || (a.FileTreeResponse? && b.FileTreeResponse?)
    || (a.ShellResponse? && b.ShellResponse?)
    || (a.ShellClose? && b.ShellClose?)
    || (a.ProcessListResponse? && b.ProcessListResponse?)
    || (a.ProcessKillResponse? && b.ProcessKillResponse?)
  }

  /** The tag alone tells the server which kind of frame it received. */
  lemma TagIdentifiesKind(a: Outbound, b: Outbound)
    ensures a.Tag() == b.Tag() <==> SameKind(a, b)
  {
  }
}
