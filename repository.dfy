/** The agent's shared state (data/AgentRepository.kt): the persisted server
    configuration, the bounded log that the UI displays, and the running/connected flags. */
module Repository {

  /** At most this many log lines are kept. */
  const MaxLogs: nat := 1000

  const ServerIdKey := "server_id"
  const ServerKeyKey := "server_key"
  const ServerUrlKey := "server_url"

  /** The buffer after one append: the oldest line goes first when the buffer is full. */
  function Appended(buffer: seq<string>, msg: string): seq<string> {
    if |buffer| >= MaxLogs then buffer[1..] + [msg] else buffer + [msg]
  }

  /** The buffer after appending every line of `msgs` to `buffer`, in order. */
  function AppendedAll(buffer: seq<string>, msgs: seq<string>): seq<string>
    decreases |msgs|
  {
    if msgs == [] then buffer else AppendedAll(Appended(buffer, msgs[0]), msgs[1..])
  }

  /** The last `n` elements of `s` (all of it when shorter). */
  function LastN(s: seq<string>, n: nat): (r: seq<string>)
    ensures |r| == if |s| < n then |s| else n
  {
    if |s| <= n then s else s[|s| - n..]
  }

  /** One append never lets the buffer outgrow the cap; below the cap nothing is dropped and
      the size grows by exactly one; the new line is always the last one. */
  lemma AppendedBounded(buffer: seq<string>, msg: string)
    requires |buffer| <= MaxLogs
    ensures var b := Appended(buffer, msg); |b| <= MaxLogs && b[|b| - 1] == msg
    ensures |buffer| < MaxLogs ==> Appended(buffer, msg) == buffer + [msg]
    ensures |buffer| == MaxLogs ==> Appended(buffer, msg) == buffer[1..] + [msg]
  {
  }

  /** Whatever was logged, the buffer holds exactly the most recent `MaxLogs` lines, oldest
      first: started empty, the buffer equals the last 1000 of all lines appended. */
  lemma {:induction false} AppendedAllKeepsNewest(buffer: seq<string>, msgs: seq<string>)
    requires |buffer| <= MaxLogs
    ensures AppendedAll(buffer, msgs) == LastN(buffer + msgs, MaxLogs)
    decreases |msgs|
  {
    if msgs == [] {
    } else {
      var b := Appended(buffer, msgs[0]);
      assert b == LastN(buffer + [msgs[0]], MaxLogs);
      AppendedAllKeepsNewest(b, msgs[1..]);
      LastNTwice(buffer + [msgs[0]], msgs[1..]);
      assert buffer + [msgs[0]] + msgs[1..] == buffer + msgs;
    }
  }

  /** Appending a run of lines and then one more is appending the longer run. */
  lemma {:induction false} AppendedAllSnoc(buffer: seq<string>, msgs: seq<string>, msg: string)
    ensures AppendedAll(buffer, msgs + [msg]) == Appended(AppendedAll(buffer, msgs), msg)
    decreases |msgs|
  {
    if msgs == [] {
      assert msgs + [msg] == [msg];
    } else {
      assert (msgs + [msg])[1..] == msgs[1..] + [msg];
      AppendedAllSnoc(Appended(buffer, msgs[0]), msgs[1..], msg);
    }
  }

  /** Trimming to the newest lines before or after appending more gives the same window. */
  lemma LastNTwice(s: seq<string>, t: seq<string>)
    ensures LastN(LastN(s, MaxLogs) + t, MaxLogs) == LastN(s + t, MaxLogs)
  {
    var u := LastN(s, MaxLogs);
    if |s| > MaxLogs {
      var k := |s| - MaxLogs;
      assert s + t == s[..k] + (u + t);
    }
  }

  class AgentRepository {
    /** The SharedPreferences file "agent_prefs": key to stored string. */
    var prefs: map<string, string>
    /** The LinkedList `logBuffer`. */
    var logBuffer: seq<string>
    /** The value last published to the `logs` StateFlow. */
    var logs: seq<string>
    var running: bool
    var connected: bool

    ghost predicate Valid()
      reads this
    {
      |logBuffer| <= MaxLogs && logs == logBuffer
    }

    /** A repository over the given stored preferences, with an empty log and both flags off. */
    constructor (stored: map<string, string>)
      ensures Valid()
      ensures prefs == stored && logBuffer == [] && logs == []
      ensures !running && !connected
    {
      prefs := stored;
      logBuffer := [];
      logs := [];
      running := false;
      connected := false;
    }

    /** `prefs.getString(key, "") ?: ""`. */
    function Get(key: string): string
      reads this
    {
      if key in prefs then prefs[key] else ""
    }

    function ServerId(): string reads this { Get(ServerIdKey) }
    function ServerKey(): string reads this { Get(ServerKeyKey) }
    function ServerUrl(): string reads this { Get(ServerUrlKey) }

    /** The setters of `serverId`, `serverKey` and `serverUrl`: `putString(key, value)`. */
    method Put(key: string, value: string)
      modifies this
      ensures prefs == old(prefs)[key := value]
      ensures Get(key) == value
      ensures forall k :: k != key ==> Get(k) == old(Get(k))
      ensures logBuffer == old(logBuffer) && logs == old(logs)
      ensures running == old(running) && connected == old(connected)
    {
      prefs := prefs[key := value];
    }

    method SetRunning(value: bool)
      modifies this`running
      ensures running == value
    {
      running := value;
    }

    method SetConnected(value: bool)
      modifies this`connected
      ensures connected == value
    {
      connected := value;
    }

    /** `appendLog`: drop the oldest line when full, add the new one last, publish a snapshot. */
    method AppendLog(msg: string)
      requires Valid()
      modifies this`logBuffer, this`logs
      ensures Valid()
      ensures logBuffer == Appended(old(logBuffer), msg)
    {
      if |logBuffer| >= MaxLogs {
        logBuffer := logBuffer[1..];
      }
      logBuffer := logBuffer + [msg];
      logs := logBuffer;
    }
  }
}
