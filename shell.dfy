/** Interactive shell sessions without a pseudo-terminal (data/ShellManager.kt).

    The agent keeps one shell subprocess per session id and emulates a terminal's line
    discipline itself: each keystroke is echoed back as its own `shell_response` frame, erase
    keys edit a line buffer, and a line is written to the shell's stdin only when Enter
    arrives. The module has three layers:
    - `Step` and `Replay`: the line editor as a pure function of (buffer, keystrokes), and
      `Typing`: the keystroke loop, which stops at the first write that fails;
    - `Shells` with `Create`, `Input`, `Close`, `Forward`, `Exit`: the session table as a
      value;
    - `ShellManager`: the object the agent uses, with its `sessions` map from id to the
      session's record (process, line buffer, stdin log), whose methods are proved to move its
      state as the value-level functions say. */
module Shell {
  import opened Wrappers
  import opened Models
  import Transport

  const Backspace: char := '\U{8}'
  const Delete: char := '\U{7F}'

  /** Back one column, overwrite with a space, back again: erases one character remotely. */
  const EraseEcho: string := "\U{8} \U{8}"
  const NewlineEcho: string := "\r\n"
  const ClosedMessage: string := "Session closed"

  predicate IsLineEnd(c: char) {
    c == '\r' || c == '\n'
  }

  predicate IsErase(c: char) {
    c == Delete || c == Backspace
  }

  /** One keystroke's effect: the new buffer, the echo frame's text if one is sent, and the
      line written to stdin if one is. */
  datatype Edit = Edit(buffer: string, echo: Option<string>, commit: Option<string>)

  /** The line editor for one keystroke. */
  function Step(buffer: string, c: char): Edit {
    if IsLineEnd(c) then Edit([], Some(NewlineEcho), Some(buffer + "\n"))
    else if IsErase(c) then
      if |buffer| > 0 then Edit(buffer[..|buffer| - 1], Some(EraseEcho), None)
      else Edit(buffer, None, None)
    else Edit(buffer + [c], Some([c]), None)
  }

  /** The effect of a run of keystrokes: final buffer, echo texts in order, lines written in
      order. */
  datatype Edited = Edited(buffer: string, echoes: seq<string>, commits: seq<string>) {
    /** This run preceded by the keystroke whose effect is `e`. */
    function After(e: Edit): Edited {
      Edited(buffer, e.echo.ToSeq() + echoes, e.commit.ToSeq() + commits)
    }

    /** This run followed by the keystroke `c`. */
    function Then(c: char): Edited {
      var e := Step(buffer, c);
      Edited(e.buffer, echoes + e.echo.ToSeq(), commits + e.commit.ToSeq())
    }
  }

  /** The line editor over a whole `data` string, one `Step` per character, left to right. */
  function Replay(buffer: string, data: string): Edited
    decreases |data|
  {
    if data == [] then Edited(buffer, [], [])
    else
      var e := Step(buffer, data[0]);
      Replay(e.buffer, data[1..]).After(e)
  }

  /** Keystrokes can be replayed in two parts: the second part starts from the buffer the
      first part left, and the echoes and writes of the two parts are concatenated. */
  lemma {:induction false} ReplayAppend(buffer: string, x: string, y: string)
    ensures var first := Replay(buffer, x);
            var second := Replay(first.buffer, y);
            Replay(buffer, x + y) == Edited(second.buffer, first.echoes + second.echoes, first.commits + second.commits)
    decreases |x|
  {
    if x == [] {
      assert x + y == y;
      var second := Replay(buffer, y);
      assert [] + second.echoes == second.echoes && [] + second.commits == second.commits;
    } else {
      var e := Step(buffer, x[0]);
      assert (x + y)[0] == x[0];
      assert (x + y)[1..] == x[1..] + y;
      ReplayAppend(e.buffer, x[1..], y);
      var rest := Replay(e.buffer, x[1..]);
      var second := Replay(rest.buffer, y);
      assert e.echo.ToSeq() + (rest.echoes + second.echoes) == (e.echo.ToSeq() + rest.echoes) + second.echoes;
      assert e.commit.ToSeq() + (rest.commits + second.commits) == (e.commit.ToSeq() + rest.commits) + second.commits;
    }
  }

  /** A single keystroke replays as one `Step`. */
  lemma ReplayOne(buffer: string, c: char)
    ensures var e := Step(buffer, c);
            Replay(buffer, [c]) == Edited(e.buffer, e.echo.ToSeq(), e.commit.ToSeq())
  {
    var e := Step(buffer, c);
    assert [c][1..] == [];
    assert e.echo.ToSeq() + [] == e.echo.ToSeq() && e.commit.ToSeq() + [] == e.commit.ToSeq();
  }

  /** Replaying one more keystroke is one more `Step` on the buffer left so far. */
  lemma ReplayNext(buffer: string, data: string, i: nat)
    requires i < |data|
    ensures var prev := Replay(buffer, data[..i]);
            var e := Step(prev.buffer, data[i]);
            Replay(buffer, data[..i + 1]) == Edited(e.buffer, prev.echoes + e.echo.ToSeq(), prev.commits + e.commit.ToSeq())
  {
    assert data[..i + 1] == data[..i] + [data[i]];
    ReplayAppend(buffer, data[..i], [data[i]]);
    ReplayOne(Replay(buffer, data[..i]).buffer, data[i]);
  }

  /** Enter appends a newline, writes the whole buffer once, empties it and echoes CR LF. */
  lemma EnterCommits(buffer: string, c: char)
    requires IsLineEnd(c)
    ensures Step(buffer, c) == Edit([], Some("\r\n"), Some(buffer + "\n"))
  {
  }

  /** An erase key removes exactly the last character and echoes "\b \b"; on an empty buffer
      it changes nothing and echoes nothing. */
  lemma EraseEditsLast(buffer: string, c: char)
    requires IsErase(c)
    ensures buffer != [] ==> Step(buffer, c) == Edit(buffer[..|buffer| - 1], Some("\U{8} \U{8}"), None)
    ensures buffer == [] ==> Step(buffer, c) == Edit([], None, None)
  {
  }

  /** Any other character is appended and echoed as itself. */
  lemma OtherAppends(buffer: string, c: char)
    requires !IsLineEnd(c) && !IsErase(c)
    ensures Step(buffer, c) == Edit(buffer + [c], Some([c]), None)
  {
  }

  /** The number of Enter keys (CR or LF) in `data`. */
  function LineEnds(data: string): nat
    decreases |data|
  {
    if data == [] then 0
    else (if IsLineEnd(data[0]) then 1 else 0) + LineEnds(data[1..])
  }

  /** stdin receives exactly one write per CR or LF typed, and at most one frame is echoed
      per keystroke. */
  lemma {:induction false} OneWritePerLineEnd(buffer: string, data: string)
    ensures |Replay(buffer, data).commits| == LineEnds(data)
    ensures |Replay(buffer, data).echoes| <= |data|
    decreases |data|
  {
    if data != [] {
      OneWritePerLineEnd(Step(buffer, data[0]).buffer, data[1..]);
    }
  }

  /** The text of every echo frame per typed character, for text without control keys. */
  function Singletons(t: string): seq<string>
    decreases |t|
  {
    if t == [] then [] else [[t[0]]] + Singletons(t[1..])
  }

  predicate PlainText(t: string) {
    forall k :: 0 <= k < |t| ==> !IsLineEnd(t[k]) && !IsErase(t[k])
  }

  /** Typing ordinary characters only grows the buffer and echoes each character once, in
      order; nothing reaches stdin. */
  lemma {:induction false} TypingPlainText(buffer: string, t: string)
    requires PlainText(t)
    ensures Replay(buffer, t) == Edited(buffer + t, Singletons(t), [])
    decreases |t|
  {
    if t != [] {
      var c := t[0];
      PlainTextTail(t);
      OtherAppends(buffer, c);
      TypingPlainText(buffer + [c], t[1..]);
      var rest := Replay(buffer + [c], t[1..]);
      assert Replay(buffer, t) == rest.After(Edit(buffer + [c], Some([c]), None));
      assert buffer + [c] + t[1..] == buffer + t;
      assert Singletons(t) == [[c]] + Singletons(t[1..]);
    }
  }

  lemma PlainTextTail(t: string)
    requires PlainText(t) && t != []
    ensures !IsLineEnd(t[0]) && !IsErase(t[0]) && PlainText(t[1..])
  {
    forall k | 0 <= k < |t[1..]|
      ensures !IsLineEnd(t[1..][k]) && !IsErase(t[1..][k])
    {
      assert t[1..][k] == t[k + 1];
    }
  }

  /** Typing a command and Enter writes the pending buffer plus the command plus "\n" to stdin
      exactly once, echoes every typed character and then CR LF, and leaves the buffer empty.
      From an empty buffer, "echo hi\n" writes "echo hi\n" once. */
  lemma CommandLine(buffer: string, t: string, enter: char)
    requires PlainText(t) && IsLineEnd(enter)
    ensures Replay(buffer, t + [enter]) == Edited([], Singletons(t) + ["\r\n"], [buffer + t + "\n"])
  {
    ReplayAppend(buffer, t, [enter]);
    TypingPlainText(buffer, t);
    ReplayOne(buffer + t, enter);
  }

  /** A CR LF pair is two Enter keys: the line is written, then a lone "\n" is written too. */
  lemma CrLfWritesTwice(buffer: string)
    ensures Replay(buffer, "\r\n") == Edited([], ["\r\n", "\r\n"], [buffer + "\n", "\n"])
  {
    ReplayAppend(buffer, "\r", "\n");
    ReplayOne(buffer, '\r');
    assert Replay(buffer, "\r") == Edited([], ["\r\n"], [buffer + "\n"]);
    ReplayOne([], '\n');
    assert [] + "\n" == "\n";
    assert Replay([], "\n") == Edited([], ["\r\n"], ["\n"]);
    assert "\r" + "\n" == "\r\n";
  }

  predicate NoLineEnd(s: string) {
    forall k :: 0 <= k < |s| ==> !IsLineEnd(s[k])
  }

  /** A line as written to stdin: ends in "\n" and holds no other CR or LF. */
  predicate IsLine(line: string) {
    line != [] && line[|line| - 1] == '\n' && NoLineEnd(line[..|line| - 1])
  }

  /** Everything written to stdin is a single line, provided the buffer did not already hold
      a CR or LF; and the buffer never comes to hold one. */
  lemma {:induction false} WritesAreLines(buffer: string, data: string)
    requires NoLineEnd(buffer)
    ensures NoLineEnd(Replay(buffer, data).buffer)
    ensures forall k :: 0 <= k < |Replay(buffer, data).commits| ==> IsLine(Replay(buffer, data).commits[k])
    decreases |data|
  {
    if data != [] {
      var e := Step(buffer, data[0]);
      assert NoLineEnd(e.buffer) by {
        if !IsLineEnd(data[0]) && IsErase(data[0]) && buffer != [] {
          assert forall k :: 0 <= k < |e.buffer| ==> e.buffer[k] == buffer[k];
        }
      }
      if e.commit.Some? {
        var line := buffer + "\n";
        assert line[..|line| - 1] == buffer;
        assert IsLine(line);
      }
      WritesAreLines(e.buffer, data[1..]);
    }
  }

  /** The position of the first CR or LF in `data`, if there is one. */
  function FirstLineEnd(data: string): (r: Option<nat>)
    ensures r.None? ==> NoLineEnd(data)
    ensures r.Some? ==> r.value < |data| && IsLineEnd(data[r.value]) && NoLineEnd(data[..r.value])
    decreases |data|
  {
    if data == [] then None
    else if IsLineEnd(data[0]) then Some(0)
    else
      var rest := FirstLineEnd(data[1..]);
      assert forall k :: 1 <= k < |data| ==> data[k] == data[1..][k - 1];
      match rest
      case None => None
      case Some(j) => Some(j + 1)
  }

  /** A CR or LF with none before it is the first one. */
  lemma FirstLineEndAt(data: string, i: nat)
    requires i < |data| && IsLineEnd(data[i]) && NoLineEnd(data[..i])
    ensures FirstLineEnd(data) == Some(i)
  {
  }

  /** Keystrokes without CR or LF write nothing to stdin. */
  lemma {:induction false} NoLineEndNoCommits(buffer: string, data: string)
    requires NoLineEnd(data)
    ensures Replay(buffer, data).commits == []
    decreases |data|
  {
    if data != [] {
      assert !IsLineEnd(data[0]);
      assert forall k :: 0 <= k < |data[1..]| ==> data[1..][k] == data[k + 1];
      NoLineEndNoCommits(Step(buffer, data[0]).buffer, data[1..]);
    }
  }

  /** The keystroke loop of `input` against a stdin that is `open` or not. While writes
      succeed it is the line editor. Once the shell's stdin is closed, the first CR or LF
      appends "\n" to the buffer, then the write throws: nothing reaches stdin, no CR LF is
      echoed, and the keystrokes after it are dropped with the rest of the loop. */
  function Typing(buffer: string, data: string, open: bool): Edited {
    if open then Replay(buffer, data)
    else match FirstLineEnd(data)
      case None => Replay(buffer, data)
      case Some(j) =>
        var r := Replay(buffer, data[..j]);
        Edited(r.buffer + "\n", r.echoes, r.commits)
  }

  /** Without a CR or LF the state of stdin never shows: the loop is the line editor. */
  lemma TypingUnbroken(buffer: string, data: string, open: bool)
    requires open || NoLineEnd(data)
    ensures Typing(buffer, data, open) == Replay(buffer, data)
  {
  }

  /** Into a closed stdin, text then Enter then more keys: the text is edited and echoed as
      usual, Enter only appends "\n" to the buffer, and the rest is lost. */
  lemma FailedEnterDropsRest(buffer: string, t: string, enter: char, rest: string)
    requires NoLineEnd(t) && IsLineEnd(enter)
    ensures var r := Replay(buffer, t);
            Typing(buffer, t + [enter] + rest, false) == Edited(r.buffer + "\n", r.echoes, [])
  {
    var data := t + [enter] + rest;
    assert data[|t|] == enter;
    assert data[..|t|] == t;
    FirstLineEndAt(data, |t|);
    NoLineEndNoCommits(buffer, t);
  }

  /** A closed stdin receives nothing, whatever is typed. */
  lemma ClosedStdinWritesNothing(buffer: string, data: string)
    ensures Typing(buffer, data, false).commits == []
  {
    match FirstLineEnd(data)
    case None => NoLineEndNoCommits(buffer, data);
    case Some(j) => NoLineEndNoCommits(buffer, data[..j]);
  }

  // ---- the session table as a value ----

  /** A live session: its shell process, the line typed so far, what its stdin received, and
      whether its stdin still accepts writes (it stops once the shell process has exited). */
  datatype SessionState = SessionState(process: nat, buffer: string, stdin: seq<string>, open: bool)

  /** The session table, the number of processes spawned so far, and the processes destroyed. */
  datatype Shells = Shells(sessions: map<string, SessionState>, spawned: nat, destroyed: set<nat>)

  /** Whether starting the shell process succeeds; a failure carries the exception's message. */
  datatype Spawn = Spawned | SpawnFailed(reason: Option<string>)

  /** A new table and the frames sent, in order. */
  datatype Effect = Effect(next: Shells, frames: seq<Outbound>)

  function FailureNotice(id: string, reason: Option<string>): Outbound {
    ShellClose(id, "Failed to create shell: " + Shown(reason))
  }

  /** One `shell_response` frame per echo, keyed by the session. */
  function EchoFrames(id: string, echoes: seq<string>): seq<Outbound>
    decreases |echoes|
  {
    if echoes == [] then [] else [ShellResponse(id, echoes[0])] + EchoFrames(id, echoes[1..])
  }

  /** Echo frames correspond one to one, in order, to the echoes, each keyed by the session. */
  lemma {:induction false} EchoFramesKeyed(id: string, echoes: seq<string>)
    ensures |EchoFrames(id, echoes)| == |echoes|
    ensures forall k :: 0 <= k < |echoes| ==> EchoFrames(id, echoes)[k] == ShellResponse(id, echoes[k])
    decreases |echoes|
  {
    if echoes != [] {
      EchoFramesKeyed(id, echoes[1..]);
      assert forall k :: 1 <= k < |echoes| ==> echoes[1..][k - 1] == echoes[k];
    }
  }

  /** Every session owns a distinct process, spawned and not yet destroyed. */
  ghost predicate WellFormed(s: Shells) {
    && (forall id :: id in s.sessions ==> s.sessions[id].process < s.spawned)
    && (forall id :: id in s.sessions ==> s.sessions[id].process !in s.destroyed)
    && (forall a, b :: a in s.sessions && b in s.sessions && a != b ==>
          s.sessions[a].process != s.sessions[b].process)
    && (forall p :: p in s.destroyed ==> p < s.spawned)
  }

  /** `createSession`. */
  function Create(s: Shells, id: string, spawn: Spawn): Effect {
    if id in s.sessions then Effect(s, [])
    else match spawn
      case Spawned => Effect(Shells(s.sessions[id := SessionState(s.spawned, [], [], true)], s.spawned + 1, s.destroyed), [])
      case SpawnFailed(reason) => Effect(s, [FailureNotice(id, reason)])
  }

  /** `input`: create the session if the id is unknown, then run the line editor over `data`
      against that session's buffer. */
  function InputEffect(s: Shells, id: string, data: string, spawn: Spawn): Effect {
    var created := Create(s, id, spawn);
    if id !in created.next.sessions then created
    else
      var fed := FeedEffect(created.next, id, data);
      Effect(fed.next, created.frames + fed.frames)
  }

  /** The keystroke loop run over `data` against the buffer and stdin of the live session `id`. */
  function FeedEffect(s: Shells, id: string, data: string): Effect
    requires id in s.sessions
  {
    var session := s.sessions[id];
    var r := Typing(session.buffer, data, session.open);
    Effect(
      s.(sessions := s.sessions[id := session.(buffer := r.buffer, stdin := session.stdin + r.commits)]),
      EchoFrames(id, r.echoes))
  }

  /** `InputEffect` is `Create` followed, when the session then exists, by `FeedEffect`. */
  lemma InputComposes(s: Shells, id: string, data: string, spawn: Spawn)
    ensures var created := Create(s, id, spawn);
            id !in created.next.sessions ==> InputEffect(s, id, data, spawn) == created
    ensures var created := Create(s, id, spawn);
            id in created.next.sessions ==>
              var fed := FeedEffect(created.next, id, data);
              InputEffect(s, id, data, spawn) == Effect(fed.next, created.frames + fed.frames)
  {
  }

  /** `closeSession`: remove the entry, destroy its process and send one close notice; nothing
      at all for an id that is not in the table. */
  function Close(s: Shells, id: string): Effect {
    if id in s.sessions then
      Effect(Shells(s.sessions - {id}, s.spawned, s.destroyed + {s.sessions[id].process}),
             [ShellClose(id, ClosedMessage)])
    else Effect(s, [])
  }

  /** The reader thread forwarding a chunk of the shell's output. */
  function Forward(s: Shells, id: string, chunk: string): Effect {
    Effect(s, [ShellResponse(id, chunk)])
  }

  /** A create for an id already in the table changes nothing and sends nothing. */
  lemma CreateExistingIsNoop(s: Shells, id: string, spawn: Spawn)
    requires id in s.sessions
    ensures Create(s, id, spawn) == Effect(s, [])
  {
  }

  /** A successful create adds exactly that id, with a fresh process, an empty buffer and
      nothing written; a failed one adds nothing and sends exactly one close notice. */
  lemma CreateOutcome(s: Shells, id: string, spawn: Spawn)
    requires WellFormed(s) && id !in s.sessions
    ensures var e := Create(s, id, spawn);
            spawn.Spawned? ==>
              && e.next.sessions.Keys == s.sessions.Keys + {id}
              && e.next.sessions[id].buffer == [] && e.next.sessions[id].stdin == [] && e.next.sessions[id].open
              && (forall k :: k in s.sessions ==> e.next.sessions[k] == s.sessions[k]
                                                  && e.next.sessions[k].process != e.next.sessions[id].process)
              && e.frames == []
    ensures var e := Create(s, id, spawn);
            spawn.SpawnFailed? ==>
              e.next == s && e.frames == [ShellClose(id, "Failed to create shell: " + Shown(spawn.reason))]
  {
  }

  /** Input for an unknown id whose shell cannot be started writes nothing and echoes
      nothing: the only frame is the close notice of the failed create. */
  lemma InputDiscardedWithoutSession(s: Shells, id: string, data: string, reason: Option<string>)
    requires id !in s.sessions
    ensures InputEffect(s, id, data, SpawnFailed(reason)) == Effect(s, [FailureNotice(id, reason)])
  {
  }

  /** Input touches only its own session, sends only frames keyed by that session, and
      appends to that session's stdin exactly the lines the keystroke loop writes. */
  lemma InputIsolated(s: Shells, id: string, data: string, spawn: Spawn)
    requires id in s.sessions || spawn.Spawned?
    ensures var e := InputEffect(s, id, data, spawn);
            var before := if id in s.sessions then s.sessions[id].buffer else [];
            var r := Typing(before, data, id !in s.sessions || s.sessions[id].open);
            && id in e.next.sessions
            && e.next.sessions[id].buffer == r.buffer
            && e.next.sessions[id].stdin == (if id in s.sessions then s.sessions[id].stdin else []) + r.commits
            && e.next.sessions.Keys == s.sessions.Keys + {id}
            && (forall k :: k in s.sessions && k != id ==> e.next.sessions[k] == s.sessions[k])
            && e.frames == EchoFrames(id, r.echoes)
  {
  }

  /** Close on a live id sends exactly one "Session closed"; closing again, as the reader
      thread does when the shell exits, sends nothing. */
  lemma CloseOnce(s: Shells, id: string)
    requires id in s.sessions
    ensures Close(s, id).frames == [ShellClose(id, "Session closed")]
    ensures id !in Close(s, id).next.sessions
    ensures Close(Close(s, id).next, id) == Effect(Close(s, id).next, [])
  {
  }

  /** After a close, input for the same id starts a new session: a new process and a buffer
      that owes nothing to the closed one. */
  lemma CloseThenInputStartsFresh(s: Shells, id: string, data: string)
    requires WellFormed(s) && id in s.sessions
    ensures var closed := Close(s, id).next;
            var e := InputEffect(closed, id, data, Spawned);
            && e.next.sessions[id].process != s.sessions[id].process
            && e.next.sessions[id].buffer == Replay([], data).buffer
            && e.next.sessions[id].stdin == Replay([], data).commits
  {
  }

  /** The shell process of session `id` exits: its stdin stops accepting writes, while the
      session stays in the table until the reader thread closes it. */
  function Exit(s: Shells, id: string): Shells {
    if id in s.sessions then s.(sessions := s.sessions[id := s.sessions[id].(open := false)]) else s
  }

  /** Once its shell has exited, a session's stdin receives nothing more and no CR LF is
      echoed; the first Enter leaves its "\n" in the buffer. */
  lemma InputAfterExit(s: Shells, id: string, t: string, enter: char, rest: string)
    requires id in s.sessions && NoLineEnd(t) && IsLineEnd(enter)
    ensures var e := FeedEffect(Exit(s, id), id, t + [enter] + rest);
            var r := Replay(s.sessions[id].buffer, t);
            && e.next.sessions[id].stdin == s.sessions[id].stdin
            && e.next.sessions[id].buffer == r.buffer + "\n"
            && e.frames == EchoFrames(id, r.echoes)
  {
    FailedEnterDropsRest(s.sessions[id].buffer, t, enter, rest);
  }

  /** What every session's stdin has received is a sequence of whole lines, and a session
      whose stdin is open holds no CR or LF in its buffer. */
  ghost predicate WritesWholeLines(s: Shells) {
    forall id :: id in s.sessions ==>
      && (s.sessions[id].open ==> NoLineEnd(s.sessions[id].buffer))
      && (forall k :: 0 <= k < |s.sessions[id].stdin| ==> IsLine(s.sessions[id].stdin[k]))
  }

  /** Typing into a session keeps every stdin a sequence of whole lines. */
  lemma FeedWritesWholeLines(s: Shells, id: string, data: string)
    requires WritesWholeLines(s) && id in s.sessions
    ensures WritesWholeLines(FeedEffect(s, id, data).next)
  {
    var session := s.sessions[id];
    var u := FeedEffect(s, id, data).next;
    if session.open {
      WritesAreLines(session.buffer, data);
      var r := Replay(session.buffer, data);
      assert forall k :: 0 <= k < |session.stdin + r.commits| ==>
        (session.stdin + r.commits)[k] == (if k < |session.stdin| then session.stdin[k] else r.commits[k - |session.stdin|]);
    } else {
      ClosedStdinWritesNothing(session.buffer, data);
      assert session.stdin + Typing(session.buffer, data, false).commits == session.stdin;
    }
    assert forall k :: k in u.sessions && k != id ==> u.sessions[k] == s.sessions[k];
  }

  /** Creating sessions, typing, closing and shell exits all keep every stdin a sequence of
      whole lines. */
  lemma InputWritesWholeLines(s: Shells, id: string, data: string, spawn: Spawn)
    requires WritesWholeLines(s)
    ensures WritesWholeLines(InputEffect(s, id, data, spawn).next)
    ensures WritesWholeLines(Close(s, id).next)
    ensures WritesWholeLines(Exit(s, id))
  {
    var t := Create(s, id, spawn).next;
    assert WritesWholeLines(t) by {
      assert forall k :: k in t.sessions && k != id ==> t.sessions[k] == s.sessions[k];
    }
    if id in t.sessions {
      FeedWritesWholeLines(t, id, data);
    }
    assert forall k :: k in Exit(s, id).sessions && k != id ==> Exit(s, id).sessions[k] == s.sessions[k];
  }

  /** Editing buffers leaves the well-formedness of a table alone: it depends only on which
      ids exist and which process each one owns. */
  lemma SameProcessesKeepWellFormed(t: Shells, u: Shells)
    requires WellFormed(t)
    requires u.sessions.Keys == t.sessions.Keys && u.spawned == t.spawned && u.destroyed == t.destroyed
    requires forall k :: k in u.sessions ==> u.sessions[k].process == t.sessions[k].process
    ensures WellFormed(u)
  {
  }

  /** A create keeps each session on its own live process. */
  lemma CreateKeepsWellFormed(s: Shells, id: string, spawn: Spawn)
    requires WellFormed(s)
    ensures WellFormed(Create(s, id, spawn).next)
  {
    if id !in s.sessions && spawn.Spawned? {
      var u := Create(s, id, spawn).next;
      assert forall k :: k in u.sessions && k != id ==> u.sessions[k] == s.sessions[k];
      assert u.sessions[id].process == s.spawned;
    }
  }

  /** Input keeps each session on its own live process. */
  lemma InputKeepsWellFormed(s: Shells, id: string, data: string, spawn: Spawn)
    requires WellFormed(s)
    ensures WellFormed(InputEffect(s, id, data, spawn).next)
  {
    CreateKeepsWellFormed(s, id, spawn);
    var t := Create(s, id, spawn).next;
    if id in t.sessions {
      FeedKeepsWellFormed(t, id, data);
    }
  }

  /** Typing into a live session keeps each session on its own live process. */
  lemma FeedKeepsWellFormed(s: Shells, id: string, data: string)
    requires WellFormed(s) && id in s.sessions
    ensures WellFormed(FeedEffect(s, id, data).next)
  {
    SameProcessesKeepWellFormed(s, FeedEffect(s, id, data).next);
  }

  /** A close keeps each remaining session on its own live process. */
  lemma CloseKeepsWellFormed(s: Shells, id: string)
    requires WellFormed(s)
    ensures WellFormed(Close(s, id).next)
  {
  }

  /** A shell exit keeps each session on its own live process. */
  lemma ExitKeepsWellFormed(s: Shells, id: string)
    requires WellFormed(s)
    ensures WellFormed(Exit(s, id))
  {
    SameProcessesKeepWellFormed(s, Exit(s, id));
  }

  // ---- the object the agent uses ----

  /** The frames of two runs of echoes are those of the concatenated run. */
  lemma {:induction false} EchoFramesAppend(id: string, a: seq<string>, b: seq<string>)
    ensures EchoFrames(id, a + b) == EchoFrames(id, a) + EchoFrames(id, b)
    decreases |a|
  {
    if a == [] {
      assert a + b == b;
    } else {
      assert (a + b)[0] == a[0];
      assert (a + b)[1..] == a[1..] + b;
      EchoFramesAppend(id, a[1..], b);
    }
  }

  /** Sending the echo frames of two runs one run after the other sends those of the
      concatenated run. */
  lemma EchoesSentInOrder(socket: Option<nat>, id: string, a: seq<string>, b: seq<string>)
    ensures Transport.Accepted(socket, EchoFrames(id, a + b))
         == Transport.Accepted(socket, EchoFrames(id, a)) + Transport.Accepted(socket, EchoFrames(id, b))
  {
    EchoFramesAppend(id, a, b);
    Transport.AcceptedAppend(socket, EchoFrames(id, a), EchoFrames(id, b));
  }

  /** The line editor over the first `i` keystrokes of `data`, one `Step` after another. */
  function ReplayPrefix(buffer: string, data: string, i: nat): Edited
    requires i <= |data|
  {
    if i == 0 then Edited(buffer, [], []) else ReplayPrefix(buffer, data, i - 1).Then(data[i - 1])
  }

  lemma {:induction false} ReplayPrefixIsReplay(buffer: string, data: string, i: nat)
    requires i <= |data|
    ensures ReplayPrefix(buffer, data, i) == Replay(buffer, data[..i])
  {
    if i == 0 {
      assert data[..0] == [];
    } else {
      ReplayPrefixIsReplay(buffer, data, i - 1);
      ReplayNext(buffer, data, i - 1);
    }
  }

  /** The loop state once the keystrokes whose effect is `r` are handled: buffer and stdin as
      the line editor leaves them, their echoes sent after `sent0`. */
  ghost predicate Typed(id: string, socket: Option<nat>, stdin0: seq<string>, sent0: seq<Outbound>,
                        r: Edited, buffer: string, stdin: seq<string>, sent: seq<Outbound>)
  {
    buffer == r.buffer && stdin == stdin0 + r.commits && sent == sent0 + Transport.Accepted(socket, EchoFrames(id, r.echoes))
  }

  lemma LoopStarts(id: string, socket: Option<nat>, buffer0: string, stdin0: seq<string>, sent0: seq<Outbound>, data: string)
    ensures Typed(id, socket, stdin0, sent0, ReplayPrefix(buffer0, data, 0), buffer0, stdin0, sent0)
  {
    assert stdin0 + [] == stdin0;
    assert sent0 + [] == sent0;
  }

  /** One pass of the loop: an edit `e` of the buffer, its line appended to stdin and its
      echo sent, moves the loop state on by that edit. */
  lemma TypedStep(id: string, socket: Option<nat>, stdin0: seq<string>, sent0: seq<Outbound>, r: Edited, e: Edit,
                  buffer: string, stdin: seq<string>, sent: seq<Outbound>,
                  buffer': string, stdin': seq<string>, sent': seq<Outbound>)
    requires Typed(id, socket, stdin0, sent0, r, buffer, stdin, sent)
    requires buffer' == e.buffer && stdin' == stdin + e.commit.ToSeq()
    requires sent' == sent + Transport.Accepted(socket, EchoFrames(id, e.echo.ToSeq()))
    ensures Typed(id, socket, stdin0, sent0, Edited(e.buffer, r.echoes + e.echo.ToSeq(), r.commits + e.commit.ToSeq()),
                  buffer', stdin', sent')
  {
    SeqAssoc(stdin0, r.commits, e.commit.ToSeq());
    EchoesSentInOrder(socket, id, r.echoes, e.echo.ToSeq());
    SeqAssoc(sent0, Transport.Accepted(socket, EchoFrames(id, r.echoes)),
             Transport.Accepted(socket, EchoFrames(id, e.echo.ToSeq())));
  }

  /** The same pass, counted in keystrokes of `data`: from the first `i` to the first `i + 1`. */
  lemma LoopAdvances(id: string, socket: Option<nat>, buffer0: string, stdin0: seq<string>, sent0: seq<Outbound>,
                     data: string, i: nat, buffer: string, stdin: seq<string>, sent: seq<Outbound>,
                     buffer': string, stdin': seq<string>, sent': seq<Outbound>)
    requires i < |data|
    requires Typed(id, socket, stdin0, sent0, ReplayPrefix(buffer0, data, i), buffer, stdin, sent)
    requires buffer' == Step(buffer, data[i]).buffer && stdin' == stdin + Step(buffer, data[i]).commit.ToSeq()
    requires sent' == sent + Transport.Accepted(socket, EchoFrames(id, Step(buffer, data[i]).echo.ToSeq()))
    ensures Typed(id, socket, stdin0, sent0, ReplayPrefix(buffer0, data, i + 1), buffer', stdin', sent')
  {
    var r := ReplayPrefix(buffer0, data, i);
    assert ReplayPrefix(buffer0, data, i + 1) == r.Then(data[i]);
    TypedStep(id, socket, stdin0, sent0, r, Step(buffer, data[i]), buffer, stdin, sent, buffer', stdin', sent');
  }

  /** After the last pass the loop state is what `Replay` over the whole of `data` gives. */
  lemma LoopEnds(id: string, socket: Option<nat>, buffer0: string, stdin0: seq<string>, sent0: seq<Outbound>,
                 data: string, buffer: string, stdin: seq<string>, sent: seq<Outbound>)
    requires Typed(id, socket, stdin0, sent0, ReplayPrefix(buffer0, data, |data|), buffer, stdin, sent)
    ensures buffer == Replay(buffer0, data).buffer
    ensures stdin == stdin0 + Replay(buffer0, data).commits
    ensures sent == sent0 + Transport.Accepted(socket, EchoFrames(id, Replay(buffer0, data).echoes))
  {
    ReplayPrefixIsReplay(buffer0, data, |data|);
    assert data[..|data|] == data;
  }

  /** The loop's state when the write for the Enter at `i` fails: the keystrokes before it
      are what `Typing` over all of `data` gives, and the buffer gains its "\n". */
  lemma LoopFails(id: string, socket: Option<nat>, buffer0: string, stdin0: seq<string>, sent0: seq<Outbound>,
                  data: string, i: nat, buffer: string, stdin: seq<string>, sent: seq<Outbound>)
    requires i < |data| && IsLineEnd(data[i]) && NoLineEnd(data[..i])
    requires Typed(id, socket, stdin0, sent0, ReplayPrefix(buffer0, data, i), buffer, stdin, sent)
    ensures buffer + "\n" == Typing(buffer0, data, false).buffer
    ensures stdin == stdin0 + Typing(buffer0, data, false).commits
    ensures sent == sent0 + Transport.Accepted(socket, EchoFrames(id, Typing(buffer0, data, false).echoes))
  {
    FirstLineEndAt(data, i);
    ReplayPrefixIsReplay(buffer0, data, i);
  }

  /** `input` as the object runs it: a create, then, when the session exists, the keystroke
      loop; the two steps together move the table and send the frames as `InputEffect` says. */
  lemma InputInTwoSteps(start: Shells, id: string, data: string, spawn: Spawn, sink: Option<nat>,
                        sent0: seq<Outbound>, created: Shells, sent1: seq<Outbound>, fed: Shells, sent2: seq<Outbound>)
    requires created == Create(start, id, spawn).next && id in created.sessions
    requires sent1 == sent0 + Transport.Accepted(sink, Create(start, id, spawn).frames)
    requires fed == FeedEffect(created, id, data).next
    requires sent2 == sent1 + Transport.Accepted(sink, FeedEffect(created, id, data).frames)
    ensures fed == InputEffect(start, id, data, spawn).next
    ensures sent2 == sent0 + Transport.Accepted(sink, InputEffect(start, id, data, spawn).frames)
  {
    InputComposes(start, id, data, spawn);
    Transport.AcceptedAppend(sink, Create(start, id, spawn).frames, FeedEffect(created, id, data).frames);
  }

  lemma SeqAssoc<T>(a: seq<T>, b: seq<T>, c: seq<T>)
    ensures a + b + c == a + (b + c)
  {
  }

  /** The `ShellManager` object: its `sessions` map, the processes it has started and
      destroyed, and the client every frame goes through. Each `ShellSession` is held in the
      map as a value whose buffer and stdin the methods replace. */
  class ShellManager {
    var sessions: map<string, SessionState>
    var spawned: nat
    var destroyed: set<nat>
    const ws: Transport.WebSocketClient

    constructor (ws: Transport.WebSocketClient)
      ensures Valid()
      ensures sessions == map[] && spawned == 0 && destroyed == {}
      ensures this.ws == ws
    {
      sessions := map[];
      spawned := 0;
      destroyed := {};
      this.ws := ws;
    }

    /** The table as a value. */
    function Abstract(): Shells
      reads this
    {
      Shells(sessions, spawned, destroyed)
    }

    /** Every session owns a distinct process, spawned and not yet destroyed. */
    ghost predicate Valid()
      reads this
    {
      WellFormed(Abstract())
    }

    method CreateSession(id: string, spawn: Spawn)
      modifies this`sessions, this`spawned, ws`sent
      ensures Abstract() == Create(old(Abstract()), id, spawn).next
      ensures ws.sent == old(ws.sent) + Transport.Accepted(ws.Sink(), Create(old(Abstract()), id, spawn).frames)
    {
      if id in sessions {
        return;
      }
      match spawn {
        case Spawned =>
          sessions := sessions[id := SessionState(spawned, [], [], true)];
          spawned := spawned + 1;
        case SpawnFailed(reason) =>
          var _ := ws.Send(FailureNotice(id, reason));
      }
    }

    method SendEcho(id: string, data: string)
      modifies ws`sent
      ensures ws.sent == old(ws.sent) + Transport.Accepted(ws.Sink(), [ShellResponse(id, data)])
    {
      var _ := ws.Send(ShellResponse(id, data));
    }

    /** One pass of the keystroke loop of `input`: the branch on `c`, applied to the session's
        line buffer and stdin. On Enter the "\n" is appended before the write; when stdin is
        not `open` the write throws, and `ok` is false with that "\n" left in the buffer. */
    method Key(id: string, buffer: string, stdin: seq<string>, c: char, open: bool)
      returns (buffer': string, stdin': seq<string>, ok: bool)
      modifies ws`sent
      ensures ok <==> open || !IsLineEnd(c)
      ensures ok ==> buffer' == Step(buffer, c).buffer
      ensures ok ==> stdin' == stdin + Step(buffer, c).commit.ToSeq()
      ensures ok ==> ws.sent == old(ws.sent) + Transport.Accepted(ws.Sink(), EchoFrames(id, Step(buffer, c).echo.ToSeq()))
      ensures !ok ==> buffer' == buffer + "\n" && stdin' == stdin && ws.sent == old(ws.sent)
    {
      buffer', stdin', ok := buffer, stdin, true;
      assert stdin + [] == stdin;
      if c == '\r' || c == '\n' {
        EnterCommits(buffer, c);
        buffer' := buffer + "\n";
        if !open {
          ok := false;
          return;
        }
        stdin' := stdin + [buffer'];
        buffer' := [];
        SendEcho(id, NewlineEcho);
      } else if c == Delete || c == Backspace {
        EraseEditsLast(buffer, c);
        if |buffer| > 0 {
          buffer' := buffer[..|buffer| - 1];
          SendEcho(id, EraseEcho);
        }
      } else {
        OtherAppends(buffer, c);
        buffer' := buffer + [c];
        SendEcho(id, [c]);
      }
    }

    /** The keystroke loop of `input` over the session's buffer and stdin, each echo sent as
        it happens; a failed write ends the loop. */
    method Keystrokes(id: string, buffer0: string, stdin0: seq<string>, data: string, open: bool)
      returns (buffer: string, stdin: seq<string>)
      modifies ws`sent
      ensures buffer == Typing(buffer0, data, open).buffer
      ensures stdin == stdin0 + Typing(buffer0, data, open).commits
      ensures ws.sent == old(ws.sent) + Transport.Accepted(ws.Sink(), EchoFrames(id, Typing(buffer0, data, open).echoes))
    {
      buffer, stdin := buffer0, stdin0;
      ghost var sent0, socket := ws.sent, ws.Sink();
      LoopStarts(id, socket, buffer0, stdin0, sent0, data);
      for i := 0 to |data|
        invariant Typed(id, socket, stdin0, sent0, ReplayPrefix(buffer0, data, i), buffer, stdin, ws.sent)
        invariant !open ==> NoLineEnd(data[..i])
      {
        ghost var sent := ws.sent;
        var buffer', stdin', ok := Key(id, buffer, stdin, data[i], open);
        if !ok {
          LoopFails(id, socket, buffer0, stdin0, sent0, data, i, buffer, stdin, ws.sent);
          return buffer', stdin';
        }
        LoopAdvances(id, socket, buffer0, stdin0, sent0, data, i, buffer, stdin, sent, buffer', stdin', ws.sent);
        assert data[..i + 1] == data[..i] + [data[i]];
        buffer, stdin := buffer', stdin';
      }
      assert data[..|data|] == data;
      TypingUnbroken(buffer0, data, open);
      LoopEnds(id, socket, buffer0, stdin0, sent0, data, buffer, stdin, ws.sent);
    }

    /** The rest of `input` once the session exists: the loop runs on the session's line buffer
        and stdin, which are then stored back. */
    method Feed(id: string, data: string)
      requires id in sessions
      modifies this`sessions, ws`sent
      ensures Abstract() == FeedEffect(old(Abstract()), id, data).next
      ensures ws.sent == old(ws.sent) + Transport.Accepted(ws.Sink(), FeedEffect(old(Abstract()), id, data).frames)
    {
      var session := sessions[id];
      var buffer, stdin := Keystrokes(id, session.buffer, session.stdin, data, session.open);
      sessions := sessions[id := session.(buffer := buffer, stdin := stdin)];
    }

    /** `input`: find or create the session, then run the keystroke loop on it. */
    method Input(id: string, data: string, spawn: Spawn)
      requires Valid()
      modifies this`sessions, this`spawned, ws`sent
      ensures Valid()
      ensures Abstract() == InputEffect(old(Abstract()), id, data, spawn).next
      ensures ws.sent == old(ws.sent) + Transport.Accepted(ws.Sink(), InputEffect(old(Abstract()), id, data, spawn).frames)
    {
      ghost var start, sent0 := Abstract(), ws.sent;
      InputKeepsWellFormed(start, id, data, spawn);
      Begin(id, data, spawn);
    }

    method Begin(id: string, data: string, spawn: Spawn)
      modifies this`sessions, this`spawned, ws`sent
      ensures Abstract() == InputEffect(old(Abstract()), id, data, spawn).next
      ensures ws.sent == old(ws.sent) + Transport.Accepted(ws.Sink(), InputEffect(old(Abstract()), id, data, spawn).frames)
    {
      ghost var start, sent0 := Abstract(), ws.sent;
      CreateSession(id, spawn);
      if id !in sessions {
        InputComposes(start, id, data, spawn);
        return;
      }
      ghost var created, sent1 := Abstract(), ws.sent;
      Feed(id, data);
      InputInTwoSteps(start, id, data, spawn, ws.Sink(), sent0, created, sent1, Abstract(), ws.sent);
    }

    /** `resize`: accepted and ignored, there being no terminal to resize. */
    method Resize(id: string, cols: int, rows: int)
      ensures Abstract() == old(Abstract()) && ws.sent == old(ws.sent)
    {
    }

    /** `closeSession`. */
    method CloseSession(id: string)
      requires Valid()
      modifies this`sessions, this`destroyed, ws`sent
      ensures Valid()
      ensures Abstract() == Close(old(Abstract()), id).next
      ensures ws.sent == old(ws.sent) + Transport.Accepted(ws.Sink(), Close(old(Abstract()), id).frames)
    {
      CloseKeepsWellFormed(Abstract(), id);
      if id in sessions {
        var session := sessions[id];
        sessions := sessions - {id};
        destroyed := destroyed + {session.process};
        var _ := ws.Send(ShellClose(id, ClosedMessage));
      }
    }

    /** The shell process of session `id` exits; the session stays until its reader thread
        ends, and writes to its stdin fail meanwhile. */
    method ShellExited(id: string)
      requires Valid()
      modifies this`sessions
      ensures Valid()
      ensures Abstract() == Exit(old(Abstract()), id)
    {
      ExitKeepsWellFormed(Abstract(), id);
      if id in sessions {
        sessions := sessions[id := sessions[id].(open := false)];
      }
    }

    /** The reader thread sends each chunk of the shell's output, keyed by the session. */
    method ForwardOutput(id: string, chunk: string)
      modifies ws`sent
      ensures Abstract() == Forward(old(Abstract()), id, chunk).next
      ensures ws.sent == old(ws.sent) + Transport.Accepted(ws.Sink(), Forward(old(Abstract()), id, chunk).frames)
    {
      var _ := ws.Send(ShellResponse(id, chunk));
    }

    /** The reader thread's end (the shell exited or its stream failed) closes the session by id. */
    method ReaderEnded(id: string)
      requires Valid()
      modifies this`sessions, this`destroyed, ws`sent
      ensures Valid()
      ensures Abstract() == Close(old(Abstract()), id).next
      ensures ws.sent == old(ws.sent) + Transport.Accepted(ws.Sink(), Close(old(Abstract()), id).frames)
    {
      CloseSession(id);
    }
  }
}
