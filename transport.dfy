/** The socket client (network/WebSocketClient.kt): one optional socket handle, the observable
    connected flag, and the message listener. The OkHttp socket itself is abstract: a handle is
    a number, the library's callbacks are the methods OnOpen, OnMessage, OnClosing, OnClosed
    and OnFailure, and a frame handed to a live handle is recorded in `sent`. */
module Transport {
  import opened Wrappers
  import opened Models

  /** What a client whose writable handle is `socket` accepts of `frames` sent one by one: all
      of them while such a handle exists, none otherwise (`send` returns false). */
  function Accepted(socket: Option<nat>, frames: seq<Outbound>): (r: seq<Outbound>)
    ensures socket.Some? ==> r == frames
    ensures socket.None? ==> r == []
  {
    if socket.Some? then frames else []
  }

  /** Sending two runs of frames one after the other is sending their concatenation. */
  lemma AcceptedAppend(socket: Option<nat>, a: seq<Outbound>, b: seq<Outbound>)
    ensures Accepted(socket, a + b) == Accepted(socket, a) + Accepted(socket, b)
  {
  }

  class WebSocketClient {
    /** `webSocket`: the current handle, null when there is none. */
    var socket: Option<nat>
    /** `_isConnected.value`. */
    var connected: bool
    /** `messageListener`, identified by a number. */
    var listener: Option<nat>
    /** A close of the current handle has been enqueued by `onClosing`; OkHttp refuses
        every frame sent on it from then on. */
    var closing: bool
    /** How many handles `newWebSocket` has produced so far. */
    var handles: nat
    /** The URL of every `newWebSocket` call, in order. */
    var dials: seq<string>
    /** Every frame a live handle accepted, in order. */
    var sent: seq<Outbound>

    ghost predicate Valid()
      reads this
    {
      (socket.Some? ==> socket.value < handles) && |dials| == handles && (closing ==> socket.Some?)
    }

    /** The handle frames can be queued on: the current one, unless its close is enqueued. */
    function Sink(): (r: Option<nat>)
      reads this`socket, this`closing
      ensures r.Some? <==> socket.Some? && !closing
      ensures r.Some? ==> r == socket
    {
      if closing then None else socket
    }

    constructor ()
      ensures Valid()
      ensures socket.None? && !connected && listener.None? && !closing
      ensures handles == 0 && dials == [] && sent == []
    {
      socket := None;
      closing := false;
      connected := false;
      listener := None;
      handles := 0;
      dials := [];
      sent := [];
    }

    method SetListener(id: nat)
      modifies this`listener
      ensures listener == Some(id)
    {
      listener := Some(id);
    }

    /** `connect(url)`: ignored while a handle exists; otherwise the request is built, which
        throws when OkHttp cannot parse the URL (`parses` is OkHttp's verdict on `url`, an
        oracle here), and a new handle is opened. After a throw nothing has changed. */
    method Connect(url: string, parses: bool) returns (thrown: bool)
      requires Valid()
      modifies this`socket, this`handles, this`dials
      ensures Valid()
      ensures thrown <==> old(socket).None? && !parses
      ensures old(socket).Some? || thrown ==> socket == old(socket) && handles == old(handles) && dials == old(dials)
      ensures old(socket).None? && !thrown ==> socket == Some(old(handles)) && handles == old(handles) + 1
      ensures old(socket).None? && !thrown ==> dials == old(dials) + [url] && Sink() == socket
    {
      thrown := false;
      if socket.Some? {
        return;
      }
      if !parses {
        thrown := true;
        return;
      }
      socket := Some(handles);
      handles := handles + 1;
      dials := dials + [url];
    }

    method OnOpen()
      modifies this`connected
      ensures connected
    {
      connected := true;
    }

    /** `onMessage`: the text goes to the listener set last, or nowhere. */
    method OnMessage(text: string) returns (receiver: Option<nat>)
      ensures receiver == listener
    {
      receiver := listener;
    }

    /** `onClosing` for the socket `handle`: the peer started the close handshake, and the
        client enqueues its own close (code 1000) on that handle. The current handle, if it is
        that one, is kept until `onClosed` but takes no more frames. */
    method OnClosing(handle: nat)
      requires Valid()
      modifies this`connected, this`closing
      ensures Valid()
      ensures !connected
      ensures closing == (old(closing) || socket == Some(handle))
      ensures socket == Some(handle) ==> Sink().None?
    {
      closing := closing || socket == Some(handle);
      connected := false;
    }

    /** `onClosed` and `onFailure` behave alike: not connected and no handle, so that a later
        `connect` opens a new socket. */
    method OnClosed()
      requires Valid()
      modifies this`connected, this`socket, this`closing
      ensures Valid()
      ensures !connected && socket.None?
    {
      connected := false;
      socket := None;
      closing := false;
    }

    method OnFailure()
      requires Valid()
      modifies this`connected, this`socket, this`closing
      ensures Valid()
      ensures !connected && socket.None?
    {
      connected := false;
      socket := None;
      closing := false;
    }

    /** `send(text)`: false without a handle or once its close is enqueued; otherwise the
        handle takes the frame. */
    method Send(frame: Outbound) returns (ok: bool)
      modifies this`sent
      ensures ok <==> socket.Some? && !closing
      ensures sent == old(sent) + Accepted(Sink(), [frame])
    {
      ok := socket.Some? && !closing;
      if ok {
        sent := sent + [frame];
      }
    }

    /** `disconnect()`: always leaves no handle and not connected, whatever the state. */
    method Disconnect()
      requires Valid()
      modifies this`connected, this`socket, this`closing
      ensures Valid()
      ensures !connected && socket.None?
    {
      socket := None;
      connected := false;
      closing := false;
    }
  }
}
