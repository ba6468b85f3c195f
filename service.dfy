/** The foreground service (service/AgentService.kt): it validates the stored configuration,
    builds the socket URL, dials the server, reacts to every change of the client's connected
    flag it observes, keeps at most one heartbeat/monitor job pair alive, and retries once per
    observed disconnect after a wait. Coroutines are abstract: a launched job is a number, the
    collector of the connected flag is the method `Collect`, and the end of the 5-second wait
    is the method `DelayElapsed`. */
module Service {
  import opened Wrappers
  import Text
  import Repository
  import Transport

  const ActionStart := "ACTION_START"
  const ActionStop := "ACTION_STOP"

  const MissingConfig := "Error: Missing Server ID or URL"
  const Connecting := "Connecting to server..."
  const ConnectedLine := "Connected to server."
  const DisconnectedLine := "Disconnected from server."
  const Waiting := "Waiting 5s to reconnect..."
  const Reconnecting := "Reconnecting..."
  const StartingTasks := "Starting background tasks..."
  const Stopped := "Agent stopped."

  // ---- the socket URL ----

  /** The host part: a leading "http://" and then a leading "https://" removed, then at most
      one trailing "/". */
  function Host(serverUrl: string): (r: string)
    ensures |r| <= |serverUrl|
  {
    var c := Text.RemovePrefix(Text.RemovePrefix(serverUrl, "http://"), "https://");
    if Text.EndsWith(c, "/") then c[..|c| - 1] else c
  }

  /** "wss" when the configured URL starts with "https", "ws" otherwise. */
  function Scheme(serverUrl: string): string {
    if Text.StartsWith(serverUrl, "https") then "wss" else "ws"
  }

  /** The socket URL: "<scheme>://<host>/api/servers/<id>/ws?token=<key>". */
  function BuildUrl(serverUrl: string, serverId: string, serverKey: string): string {
    Scheme(serverUrl) + Address(serverUrl, serverId, serverKey)
  }

  /** Everything of the socket URL after the scheme. */
  function Address(serverUrl: string, serverId: string, serverKey: string): (r: string)
    ensures |r| >= 3 && r[..3] == "://"
  {
    "://" + (Host(serverUrl) + "/api/servers/" + serverId + "/ws?token=" + serverKey)
  }

  /** A configured URL the start refuses: a blank server id or a blank server URL (the key
      may be blank). */
  predicate Incomplete(serverId: string, serverUrl: string) {
    Text.IsBlank(serverId) || Text.IsBlank(serverUrl)
  }

  /** The secure scheme is chosen exactly for a configured URL that starts with "https". */
  lemma BuildUrlSecure(serverUrl: string, serverId: string, serverKey: string)
    ensures Text.StartsWith(BuildUrl(serverUrl, serverId, serverKey), "wss://")
            <==> Text.StartsWith(serverUrl, "https")
    ensures !Text.StartsWith(serverUrl, "https") ==> Text.StartsWith(BuildUrl(serverUrl, serverId, serverKey), "ws://")
  {
    var r := BuildUrl(serverUrl, serverId, serverKey);
    var a := Address(serverUrl, serverId, serverKey);
    if Text.StartsWith(serverUrl, "https") {
      assert r == "wss" + a;
      assert r[..6] == "wss" + a[..3];
    } else {
      assert r == "ws" + a;
      assert r[..5] == "ws" + a[..3];
      assert r[2] == a[0] == ':';
    }
  }

  /** Without a scheme prefix, the host is the URL less at most one trailing "/". */
  lemma HostOfUndecorated(u: string)
    requires !Text.StartsWith(u, "http://") && !Text.StartsWith(u, "https://")
    ensures Host(u) == if Text.EndsWith(u, "/") then u[..|u| - 1] else u
  {
  }

  /** A bare host, with or without one trailing "/", is its own host part. */
  lemma HostOfBare(h: string, s: string)
    requires !Text.StartsWith(h, "http://") && !Text.StartsWith(h, "https://") && !Text.EndsWith(h, "/")
    requires s == "/" || s == ""
    ensures !Text.StartsWith(h + s, "http://") && !Text.StartsWith(h + s, "https://")
    ensures Host(h + s) == h
  {
    var u := h + s;
    assert !Text.StartsWith(u, "https://") by {
      if |h| >= 8 {
        assert u[..8] == h[..8];
      } else if |u| >= 8 {
        assert u[6] == h[6];
      }
    }
    assert !Text.StartsWith(u, "http://") by {
      if |h| >= 7 {
        assert u[..7] == h[..7];
      } else if |u| >= 7 {
        assert u[5] == h[5];
      }
    }
    HostOfUndecorated(u);
    if s == "/" {
      assert u[..|u| - 1] == h;
    }
  }

  /** A host written with either scheme or none, with or without one trailing "/", yields
      the same host. */
  lemma HostStripsDecoration(h: string, slash: bool)
    requires !Text.StartsWith(h, "http://") && !Text.StartsWith(h, "https://") && !Text.EndsWith(h, "/")
    ensures var s := if slash then "/" else "";
            Host("http://" + h + s) == h && Host("https://" + h + s) == h && Host(h + s) == h
  {
    var s := if slash then "/" else "";
    var u := h + s;
    HostOfBare(h, s);
    assert "http://" + h + s == "http://" + u;
    HostOfPrefixed("http://", u);
    assert "https://" + h + s == "https://" + u;
    HostOfPrefixed("https://", u);
  }

  /** One scheme prefix in front of an undecorated URL is removed. */
  lemma HostOfPrefixed(p: string, u: string)
    requires p == "http://" || p == "https://"
    requires !Text.StartsWith(u, "http://") && !Text.StartsWith(u, "https://")
    ensures Host(p + u) == Host(u)
  {
    var x := p + u;
    assert x[..|p|] == p;
    if p == "http://" {
      assert Text.RemovePrefix(x, "http://") == u;
    } else {
      assert x[4] != "http://"[4];
      assert Text.RemovePrefix(x, "http://") == x;
      assert Text.RemovePrefix(x, "https://") == u;
    }
  }

  /** Only one trailing "/" goes: a host ending in "//" keeps one. */
  lemma HostDropsOneSlash(h: string)
    requires !Text.StartsWith(h + "//", "http://") && !Text.StartsWith(h + "//", "https://")
    requires !Text.EndsWith(h, "/")
    ensures Host(h + "//") == h + "/"
  {
    var u := h + "//";
    assert Text.RemovePrefix(Text.RemovePrefix(u, "http://"), "https://") == u;
    assert u[|u| - 1..] == "/";
    assert u[..|u| - 1] == h + "/";
  }

  /** The log lines of one reaction of the collector to an observed connected value, given
      whether a heartbeat job is alive and whether the agent is meant to run. */
  function ReactionLogs(connected: bool, jobsAlive: bool, running: bool): (r: seq<string>)
    ensures 1 <= |r| <= 2
    ensures connected ==> r[0] == ConnectedLine && (|r| == 2 <==> !jobsAlive)
    ensures !connected ==> r[0] == DisconnectedLine && (|r| == 2 <==> running)
  {
    if connected then [ConnectedLine] + (if jobsAlive then [] else [StartingTasks])
    else [DisconnectedLine] + (if running then [Waiting] else [])
  }

  /** The log lines of `stopNativeAgent`, given whether the collector reacts to the drop of
      the connected flag and whether the agent was running. */
  function StopLogs(reacts: bool, running: bool): (r: seq<string>)
    ensures |r| >= 1 && r[|r| - 1] == Stopped
    ensures !reacts ==> r == [Stopped]
    ensures reacts ==> r[0] == DisconnectedLine && (r == [DisconnectedLine, Waiting, Stopped] <==> running)
  {
    (if reacts then ReactionLogs(false, false, running) else []) + [Stopped]
  }

  /** The loop jobs named by the two job fields. */
  function JobSet(heartbeat: Option<nat>, monitor: Option<nat>): set<nat> {
    (if heartbeat.Some? then {heartbeat.value} else {}) + (if monitor.Some? then {monitor.value} else {})
  }

  class AgentService {
    const repo: Repository.AgentRepository
    const ws: Transport.WebSocketClient
    /** `heartbeatJob` and `monitorJob`: the loop jobs, null when none runs. */
    var heartbeatJob: Option<nat>
    var monitorJob: Option<nat>
    /** How many loop jobs have been launched so far (the next job's number). */
    var launched: nat
    /** The loop jobs launched and not cancelled. */
    ghost var live: set<nat>
    /** The collector launched by the last start, holding the URL it reconnects to. */
    var collector: Option<string>
    /** The connected value the collector reacted to last (a state flow emits only changes). */
    var lastSeen: Option<bool>
    /** The collector is suspended in its 5-second wait. */
    var waiting: bool

    ghost predicate Valid()
      reads this, repo, ws
    {
      repo.Valid() && ws.Valid()
      && (heartbeatJob.Some? <==> monitorJob.Some?)
      && live == JobSet(heartbeatJob, monitorJob)
      && (forall j :: j in live ==> j < launched)
      && ((waiting || lastSeen.Some?) ==> collector.Some?)
    }

    /** The service as `onCreate` leaves it: no job, no collector. */
    constructor (repo: Repository.AgentRepository, ws: Transport.WebSocketClient)
      requires repo.Valid() && ws.Valid()
      ensures Valid()
      ensures this.repo == repo && this.ws == ws
      ensures heartbeatJob.None? && monitorJob.None? && collector.None? && !waiting
    {
      this.repo := repo;
      this.ws := ws;
      heartbeatJob := None;
      monitorJob := None;
      launched := 0;
      live := {};
      collector := None;
      lastSeen := None;
      waiting := false;
    }

    /** `startBackgroundTasks`: nothing while the heartbeat job is alive; otherwise one log
        line and a fresh heartbeat/monitor pair. So at most one pair is ever alive. */
    method StartBackgroundTasks()
      requires Valid()
      modifies this`heartbeatJob, this`monitorJob, this`launched, this`live, repo`logBuffer, repo`logs
      ensures Valid()
      ensures |live| <= 2 && heartbeatJob.Some?
      ensures old(heartbeatJob).Some? ==>
                heartbeatJob == old(heartbeatJob) && monitorJob == old(monitorJob) && live == old(live)
                && repo.logBuffer == old(repo.logBuffer)
      ensures old(heartbeatJob).None? ==>
                old(live) == {} && heartbeatJob == Some(old(launched)) && monitorJob == Some(old(launched) + 1)
                && live == {old(launched), old(launched) + 1}
                && repo.logBuffer == Repository.Appended(old(repo.logBuffer), StartingTasks)
    {
      if heartbeatJob.Some? {
        return;
      }
      repo.AppendLog(StartingTasks);
      heartbeatJob := Some(launched);
      monitorJob := Some(launched + 1);
      live := {launched, launched + 1};
      launched := launched + 2;
    }

    /** `stopBackgroundTasks`: both jobs cancelled and forgotten. */
    method StopBackgroundTasks()
      requires Valid()
      modifies this`heartbeatJob, this`monitorJob, this`live
      ensures Valid()
      ensures heartbeatJob.None? && monitorJob.None? && live == {}
    {
      heartbeatJob := None;
      monitorJob := None;
      live := {};
    }

    /** The body of the collector for one observed value. */
    method React(connected: bool)
      requires Valid() && collector.Some? && !waiting
      modifies repo`connected, repo`logBuffer, repo`logs,
               this`heartbeatJob, this`monitorJob, this`launched, this`live, this`waiting
      ensures Valid()
      ensures repo.connected == connected
      ensures repo.logBuffer
              == Repository.AppendedAll(old(repo.logBuffer), ReactionLogs(connected, old(heartbeatJob).Some?, repo.running))
      ensures connected ==> heartbeatJob.Some? && !waiting
      ensures connected && old(heartbeatJob).Some? ==> heartbeatJob == old(heartbeatJob) && live == old(live)
      ensures !connected ==> heartbeatJob.None? && monitorJob.None? && live == {}
      ensures !connected ==> waiting == repo.running
    {
      repo.SetConnected(connected);
      ghost var b0 := repo.logBuffer;
      if connected {
        repo.AppendLog(ConnectedLine);
        Repository.AppendedAllSnoc(b0, [], ConnectedLine);
        ghost var hadJobs := heartbeatJob.Some?;
        StartBackgroundTasks();
        if !hadJobs {
          Repository.AppendedAllSnoc(b0, [ConnectedLine], StartingTasks);
        }
      } else {
        repo.AppendLog(DisconnectedLine);
        Repository.AppendedAllSnoc(b0, [], DisconnectedLine);
        StopBackgroundTasks();
        if repo.running {
          repo.AppendLog(Waiting);
          Repository.AppendedAllSnoc(b0, [DisconnectedLine], Waiting);
          waiting := true;
        }
      }
    }

    /** The collector would react now: it exists, it is not suspended in its wait, and the
        client's connected value differs from the one it saw last. */
    ghost predicate Fires()
      reads this, ws
    {
      collector.Some? && !waiting && lastSeen != Some(ws.connected)
    }

    /** The collector's turn: the reaction to the client's connected value when it fires,
        nothing otherwise. */
    method Collect()
      requires Valid()
      modifies repo`connected, repo`logBuffer, repo`logs,
               this`heartbeatJob, this`monitorJob, this`launched, this`live, this`waiting, this`lastSeen
      ensures Valid()
      ensures old(Fires()) ==>
                lastSeen == Some(ws.connected) && repo.connected == ws.connected
                && repo.logBuffer == Repository.AppendedAll(old(repo.logBuffer),
                                       ReactionLogs(ws.connected, old(heartbeatJob).Some?, repo.running))
                && (ws.connected <==> heartbeatJob.Some?)
                && waiting == (!ws.connected && repo.running)
      ensures !old(Fires()) ==>
                lastSeen == old(lastSeen) && repo.logBuffer == old(repo.logBuffer)
                && repo.connected == old(repo.connected) && heartbeatJob == old(heartbeatJob)
                && waiting == old(waiting)
    {
      if collector.Some? && !waiting && lastSeen != Some(ws.connected) {
        lastSeen := Some(ws.connected);
        React(ws.connected);
      }
    }

    /** The end of the 5-second wait: a reconnect to the collector's URL only when the agent
        is still meant to run. `parses` is OkHttp's verdict on that URL; when the dial throws,
        the exception leaves the coroutine uncaught and the process ends (`crashed`). */
    method DelayElapsed(parses: bool) returns (crashed: bool)
      requires Valid()
      modifies this`waiting, repo`logBuffer, repo`logs, ws`socket, ws`handles, ws`dials
      ensures Valid()
      ensures !waiting
      ensures crashed <==> old(waiting) && repo.running && old(ws.socket).None? && !parses
      ensures !old(waiting) ==> repo.logBuffer == old(repo.logBuffer) && ws.dials == old(ws.dials)
                                && ws.socket == old(ws.socket)
      ensures old(waiting) && !repo.running ==> repo.logBuffer == old(repo.logBuffer) && ws.dials == old(ws.dials)
                                                && ws.socket == old(ws.socket)
      ensures old(waiting) && repo.running ==>
                repo.logBuffer == Repository.Appended(old(repo.logBuffer), Reconnecting)
                && (ws.socket.Some? <==> !crashed)
                && ws.dials == old(ws.dials) + (if old(ws.socket).None? && !crashed then [collector.value] else [])
    {
      crashed := false;
      if !waiting {
        return;
      }
      waiting := false;
      if repo.running {
        repo.AppendLog(Reconnecting);
        crashed := ws.Connect(collector.value, parses);
      }
    }

    /** A retry whose dial fails stalls the agent for good: the failure sets the connected
        flag to false, which it already was, and a state flow does not emit an equal value,
        so the collector does not react again. Nothing waits, and only another start dials. */
    method FailedRetry() returns (crashed: bool)
      requires Valid() && waiting && lastSeen == Some(false) && repo.running
      requires ws.socket.None? && !ws.connected
      modifies this`waiting, repo`logBuffer, repo`logs, ws`socket, ws`handles, ws`dials,
               ws`connected, ws`closing, repo`connected,
               this`heartbeatJob, this`monitorJob, this`launched, this`live, this`lastSeen
      ensures Valid() && !crashed
      ensures ws.dials == old(ws.dials) + [collector.value]
      ensures ws.socket.None? && !ws.connected && repo.running
      ensures !waiting && lastSeen == Some(false) && !Fires()
      ensures heartbeatJob == old(heartbeatJob)
      ensures repo.logBuffer == Repository.Appended(old(repo.logBuffer), Reconnecting)
    {
      crashed := DelayElapsed(true);
      ws.OnFailure();
      Collect();
    }

    /** The second half of `startNativeAgent`, once the configuration passed: the listener
        is set, a fresh collector starts and reacts at once to the current connected value,
        and the server is dialled once. `parses` is OkHttp's verdict on `url`: when the dial
        throws, nothing catches it on the main thread and the process ends (`crashed`), with
        "Connecting to server..." the last line logged. */
    method Launch(url: string, listener: nat, parses: bool) returns (crashed: bool)
      requires Valid() && repo.running
      modifies repo`connected, repo`logBuffer, repo`logs,
               ws`listener, ws`socket, ws`handles, ws`dials,
               this`heartbeatJob, this`monitorJob, this`launched, this`live,
               this`collector, this`lastSeen, this`waiting
      ensures Valid()
      ensures ws.listener == Some(listener) && collector == Some(url)
      ensures lastSeen == Some(ws.connected) && repo.connected == ws.connected
      ensures waiting == !ws.connected && (ws.connected <==> heartbeatJob.Some?)
      ensures repo.logBuffer == Repository.AppendedAll(old(repo.logBuffer),
                                  ReactionLogs(ws.connected, old(heartbeatJob).Some?, true) + [Connecting])
      ensures crashed <==> old(ws.socket).None? && !parses
      ensures (ws.socket.Some? <==> !crashed)
              && ws.dials == old(ws.dials) + (if old(ws.socket).None? && !crashed then [url] else [])
    {
      ws.SetListener(listener);
      collector := Some(url);
      lastSeen := None;
      waiting := false;
      ghost var b0 := repo.logBuffer;
      ghost var hadJobs := heartbeatJob.Some?;
      Collect();
      ghost var first := ReactionLogs(ws.connected, hadJobs, true);
      repo.AppendLog(Connecting);
      Repository.AppendedAllSnoc(b0, first, Connecting);
      crashed := ws.Connect(url, parses);
    }

    /** `startNativeAgent` with the number standing for the message listener: running is
        set, then an incomplete configuration is refused with one log line and running
        cleared; otherwise the collector is launched and the server dialled, which ends the
        process when OkHttp cannot parse the built URL (`parses`, as in `Launch`). */
    method StartNativeAgent(listener: nat, parses: bool) returns (crashed: bool)
      requires Valid()
      modifies repo`running, repo`connected, repo`logBuffer, repo`logs,
               ws`listener, ws`socket, ws`handles, ws`dials,
               this`heartbeatJob, this`monitorJob, this`launched, this`live,
               this`collector, this`lastSeen, this`waiting
      ensures Valid()
      ensures old(Incomplete(repo.ServerId(), repo.ServerUrl())) ==>
                !repo.running && repo.logBuffer == Repository.Appended(old(repo.logBuffer), MissingConfig)
                && ws.dials == old(ws.dials) && ws.socket == old(ws.socket) && ws.listener == old(ws.listener)
                && collector == old(collector) && heartbeatJob == old(heartbeatJob) && !crashed
      ensures !old(Incomplete(repo.ServerId(), repo.ServerUrl())) ==>
                var url := old(BuildUrl(repo.ServerUrl(), repo.ServerId(), repo.ServerKey()));
                repo.running && ws.listener == Some(listener) && collector == Some(url)
                && lastSeen == Some(ws.connected) && repo.connected == ws.connected
                && waiting == !ws.connected && (ws.connected <==> heartbeatJob.Some?)
                && repo.logBuffer == Repository.AppendedAll(old(repo.logBuffer),
                                       ReactionLogs(ws.connected, old(heartbeatJob).Some?, true) + [Connecting])
                && (crashed <==> old(ws.socket).None? && !parses)
                && (ws.socket.Some? <==> !crashed)
                && ws.dials == old(ws.dials) + (if old(ws.socket).None? && !crashed then [url] else [])
    {
      crashed := false;
      var serverId := repo.ServerId();
      var serverKey := repo.ServerKey();
      var serverUrl := repo.ServerUrl();
      repo.SetRunning(true);
      if Incomplete(serverId, serverUrl) {
        repo.AppendLog(MissingConfig);
        repo.SetRunning(false);
        return;
      }
      crashed := Launch(BuildUrl(serverUrl, serverId, serverKey), listener, parses);
    }

    /** The collector would react to the connected flag dropping to false: it exists, is not
        suspended in its wait, and did not see false last. */
    ghost predicate ObservesDrop()
      reads this
    {
      collector.Some? && !waiting && lastSeen != Some(false)
    }

    /** `stopNativeAgent`: no handle, not running, not connected. The service runs on the
        main thread and its collector resumes in place, so the drop of the connected flag
        inside `disconnect()` is reacted to at once, while the agent still counts as running:
        the log gains "Disconnected from server." and "Waiting 5s to reconnect..." before
        "Agent stopped.", and the collector is left in its wait. */
    method StopNativeAgent()
      requires Valid()
      modifies ws`connected, ws`socket, ws`closing, repo`running, repo`connected, repo`logBuffer, repo`logs,
               this`heartbeatJob, this`monitorJob, this`launched, this`live, this`waiting, this`lastSeen
      ensures Valid()
      ensures ws.socket.None? && !ws.connected && !repo.running && !repo.connected
      ensures repo.logBuffer == Repository.AppendedAll(old(repo.logBuffer), StopLogs(old(ObservesDrop()), old(repo.running)))
      ensures old(ObservesDrop()) ==>
                lastSeen == Some(false) && heartbeatJob.None? && monitorJob.None? && waiting == old(repo.running)
      ensures !old(ObservesDrop()) ==>
                lastSeen == old(lastSeen) && heartbeatJob == old(heartbeatJob) && waiting == old(waiting)
      ensures ws.dials == old(ws.dials)
    {
      ws.Disconnect();
      ghost var b0, running0 := repo.logBuffer, repo.running;
      Collect();
      ghost var first := if old(ObservesDrop()) then ReactionLogs(false, old(heartbeatJob).Some?, running0) else [];
      repo.SetRunning(false);
      repo.SetConnected(false);
      repo.AppendLog(Stopped);
      Repository.AppendedAllSnoc(b0, first, Stopped);
    }

    /** `stopSelf` ending the lifecycle scope: the collector, its wait and both jobs end. */
    method Destroy()
      requires Valid()
      modifies this`heartbeatJob, this`monitorJob, this`live, this`collector, this`lastSeen, this`waiting
      ensures Valid()
      ensures heartbeatJob.None? && monitorJob.None? && live == {}
      ensures collector.None? && lastSeen.None? && !waiting
    {
      heartbeatJob := None;
      monitorJob := None;
      live := {};
      collector := None;
      lastSeen := None;
      waiting := false;
    }

    /** `onStartCommand`: the intent's action selects start, or stop followed by the end of
        the service; any other action (or none) changes nothing. Only a start can end the
        process, when its dial throws (`parses` as in `StartNativeAgent`). */
    method OnStartCommand(action: Option<string>, listener: nat, parses: bool) returns (crashed: bool)
      requires Valid()
      modifies repo`running, repo`connected, repo`logBuffer, repo`logs,
               ws`listener, ws`socket, ws`handles, ws`dials, ws`connected, ws`closing,
               this`heartbeatJob, this`monitorJob, this`launched, this`live,
               this`collector, this`lastSeen, this`waiting
      ensures Valid()
      ensures crashed ==> action == Some(ActionStart)
      ensures action == Some(ActionStart) ==>
                repo.running == !old(Incomplete(repo.ServerId(), repo.ServerUrl()))
                && (crashed <==> repo.running && old(ws.socket).None? && !parses)
                && (repo.running && !crashed ==> collector.Some? && ws.socket.Some?)
      ensures action == Some(ActionStop) ==>
                !repo.running && !repo.connected && ws.socket.None? && !ws.connected
                && collector.None? && heartbeatJob.None? && !waiting
                && repo.logBuffer == Repository.AppendedAll(old(repo.logBuffer), StopLogs(old(ObservesDrop()), old(repo.running)))
      ensures action != Some(ActionStart) && action != Some(ActionStop) ==>
                repo.running == old(repo.running) && repo.logBuffer == old(repo.logBuffer)
                && ws.socket == old(ws.socket) && collector == old(collector) && heartbeatJob == old(heartbeatJob)
    {
      crashed := false;
      if action == Some(ActionStart) {
        crashed := StartNativeAgent(listener, parses);
      } else if action == Some(ActionStop) {
        StopNativeAgent();
        Destroy();
      }
    }
  }
}
